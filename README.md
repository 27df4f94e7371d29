# Time horizons by domain: a Dafny model of the fitting core

The pipeline measures how long a task an AI agent can finish, broken down by domain. Its core
has three stages.

- **Normaliser** (`pipeline/transform.py`). It maps each raw benchmark run to a unified
  observation record. It infers the run's domain from the task family through the
  `TASK_DOMAIN_MAP` table, falling back to keyword matching when the family is unknown.
- **Fitter** (`pipeline/fit.py`).
  - It groups records by domain and by (model, domain).
  - For every group it estimates a *time horizon*: the task duration at which the smoothed
    success curve crosses 50%.
  - For every domain it adds quantile bounds, a doubling time in months and a median record
    duration.
  - It then sorts the outputs.
- **Economics export** (`pipeline/export.py`). It aggregates token counts per model into token
  rates and cost scenarios. The scenarios come from a static price table and input/output
  split presets.

Files:

- `wrappers.dfy`: `Option` and `Result`.
- `filtering.dfy`: filtering comprehensions and conditional sums, specified by the positions
  they keep.
- `sorting.dfy`: Python's stable `sorted`, the sorted enumeration of a set, and `str` ordering.
- `strings.dfy`: whitespace splitting, ASCII `lower` and substring search.
- `grouping.dfy`: `defaultdict(list)` grouping with insertion-ordered keys.
- `numerics.dfy`: exact powers of two, and the foreign numeric routines. Those routines are
  `Routines` parameters of the model.
- `transform.dfy`: the normaliser.
- `horizon.dfy`: `estimate_horizon`.
- `doubling.dfy`: `compute_doubling_months`.
- `fit.dfy`: the grouping, per-group fits and sorting of `main`.
- `export.dfy`: `_build_agent_economics` and its tables.

Imperative source loops are methods proved equal to specification functions:

- `BinPoints`, `SmoothCurve`, `ChooseHorizon` and `EstimateHorizon`;
- `ParseDates`;
- `GroupRecords`, `FitModelDomains`, `SummarizeDomains` and `FitAll`;
- `TallyRows`, `EstimateScenarios`, `ReportTally` and `BuildAgentEconomics`.

Lemmas state what the source promises about those functions.

Rounding happens inside the fit, not only on output, and the model rounds where the code does:

- Each `model_domain` horizon is rounded to four decimals (`pipeline/fit.py:131`) before the
  `> 0` filter, the quantile bounds and the doubling-time regression use it
  (`pipeline/fit.py:142-145`). `Fit.RoundedHorizonFilter` states the consequence: a fitted
  horizon below 0.00005 minutes drops out of the bounds.
- `beta_proxy` is rounded to six decimals (`pipeline/fit.py:132`); the other fitted numbers to
  four.

## Model

| member | source | states |
|---|---|---|
| Transform.TaskDomain | pipeline/transform.py:13-98 | a known task family maps to one of the five named domains, never to "unknown" |
| Transform.EmptyFamilyUnknown | pipeline/transform.py:13-98 | the empty family is not in the table |
| Transform.KeywordDomain | pipeline/transform.py:105-112 | the fallback gives cybersecurity iff a cyber keyword occurs; otherwise software iff a software keyword occurs; otherwise reasoning iff a reasoning keyword occurs; otherwise "unknown"; it never yields ml_research or data_analysis |
| Transform.InferDomain | pipeline/transform.py:101-112 | raises IndexError exactly for non-empty all-blank text; a tabled first token decides the domain; otherwise (or for empty text) the keyword fallback on the lower-cased text decides |
| Transform.KnownFamilyDecides | pipeline/transform.py:102-104 | a tabled family followed by a space decides the domain whatever follows |
| Transform.InferPicoCtfExample | tests/test_transform.py:5 | "pico_ctf pico_ctf/104" is cybersecurity |
| Transform.InferMlabExample | tests/test_transform.py:6 | "mlab mlab/w1d1" is ml_research |
| Transform.InferCodeCompletionExample | tests/test_transform.py:7 | "code_completion code_completion/foo" is software_engineering |
| Transform.InferDataCleaningExample | tests/test_transform.py:8 | "data_cleaning_arjun data_cleaning_arjun/x" is data_analysis |
| Transform.InferArithmeticExample | tests/test_transform.py:9 | "arithmetic arithmetic/1" is reasoning |
| Transform.CodeCompletionInTable | pipeline/transform.py:54 | code_completion is a one-token family of the software block |
| Transform.ModelName | pipeline/transform.py:138 | the model name is the first truthy of alias, model, agent, else "unknown"; never empty |
| Transform.Scores | pipeline/transform.py:141-146 | a missing binary score is 1 iff the continuous score is at least 0.5; a missing continuous score copies the binary one; a run with neither scores (0.0, 0) |
| Transform.ReleaseDate | pipeline/transform.py:151-156 | the run's own date, else the table entry for the name, else the entry for the lower-cased name, else ""; it is empty iff all three are missing or empty |
| Transform.NormalizeRun | pipeline/transform.py:132-171 | for a well-typed run, raises exactly when task family and id are both blank; otherwise keeps benchmark and source, sets the domain to what infer_domain gives for family + " " + id and the subdomain to the family or "unknown" when it is empty, fills model, agent, scores, date and minutes as above, and passes the token and cost fields through |
| Transform.NormalizeKnownFamily | pipeline/transform.py:139-161 | a tabled family sets the record's domain and its subdomain |
| Transform.NormalizeBlankTaskRaises | pipeline/transform.py:160 | empty family and id make the call raise IndexError |
| Transform.NormalizeExample | tests/test_transform.py:16-31 | the test's run normalises to software_engineering, model-a, the tabled date, score 1 and 42 minutes |
| Strings.FirstToken | pipeline/transform.py:102 | None exactly for blank text; otherwise a non-empty run of non-space characters that follows only whitespace and ends at a space or at the end of the text: the leading token |
| Strings.FirstTokenOfJoin | pipeline/transform.py:102 | the first token of "token rest" is the token |
| Strings.Lower | pipeline/transform.py:105 | lowering keeps the length and maps each character by ASCII case |
| Strings.ContainsAt | pipeline/transform.py:106-110 | `k in value` holds iff `k` occurs at some index |
| Grouping.GroupBy | pipeline/fit.py:114-119 | the grouped dictionary has distinct keys, exactly those in its order, none with an empty list |
| Grouping.GroupByMembers | pipeline/fit.py:117-119 | a key is present iff some element has it, and its list is the elements with that key in input order |
| Grouping.GroupOrderCount | pipeline/fit.py:123 | there is one key per distinct key of the input |
| Grouping.GroupResults | pipeline/fit.py:123-136 | the per-group results are one per distinct key, each computed from all elements with that key |
| Grouping.MembersCount | pipeline/fit.py:117-119 | a group holds only elements of the input with its key |
| Sorting.SortBy | pipeline/fit.py:161-162 | sorting is a permutation of its input |
| Sorting.SortBySorted | pipeline/fit.py:161-162 | under a total preorder the result is sorted |
| Sorting.SortByMembership | pipeline/fit.py:161-162 | sorting keeps exactly the same elements |
| Filtering.Kept | pipeline/fit.py:142 | the kept positions are exactly those whose element satisfies the condition, each once, ascending |
| Filtering.KeptCount | pipeline/fit.py:142 | a filter keeps at most as many positions as there are elements |
| Filtering.Filter | pipeline/fit.py:142 | a filtering comprehension yields the elements at the kept positions, in order |
| Filtering.FilterConcat | pipeline/fit.py:142 | filtering a concatenation filters each part and concatenates |
| Filtering.FilterCons | pipeline/fit.py:142 | a common first element keeps a relation between two filterings |
| Filtering.FilterNone | pipeline/fit.py:142 | nothing is kept when no element satisfies the condition |
| Filtering.FilterCongruent | pipeline/fit.py:142 | conditions that agree on every element keep the same elements |
| Sorting.InsertTied | pipeline/export.py:156-160 | inserting into a sorted list places the element after every element tied with it |
| Sorting.SortByStable | pipeline/export.py:156-160 | sorting is stable: the elements tied with any key keep their input order |
| Sorting.SortSet | pipeline/fit.py:125 | `sorted(set)` yields the unique sorted enumeration of the set |
| Sorting.StrLeTotalOrder | pipeline/fit.py:161-162 | Python's string comparison is a total order |
| Numerics.Pow2 | pipeline/fit.py:43 | `2 ** k` is positive |
| Numerics.Pow2Increasing | pipeline/fit.py:43 | powers of two increase strictly with the exponent |
| Horizon.Bins | pipeline/fit.py:30-34 | every bin holds at least one score |
| Horizon.BinsGroupRows | pipeline/fit.py:30-34 | a bin exists iff some timed row falls in it, and it holds those rows' scores in order |
| Horizon.NoBinsWithoutTimedRows | pipeline/fit.py:31-36 | there are no bins iff no row has positive minutes |
| Horizon.SumOfBinary | pipeline/fit.py:42 | the sum of 0/1 scores counts the ones |
| Horizon.MeanOfBinary | pipeline/fit.py:42 | a bin's success is its share of successes, in [0, 1] |
| Horizon.RawCurve | pipeline/fit.py:39-43 | one point per given bin key, in the keys' order, at 2^bin minutes with the bin's mean success |
| Horizon.RunningMinIsLeast | pipeline/fit.py:46-49 | the running value is at most 1 and at most every success so far, and equals 1 or one of them |
| Horizon.Smooth | pipeline/fit.py:46-51 | smoothing keeps every point and sets its smoothed success to the running minimum |
| Horizon.SortedKeys | pipeline/fit.py:40 | the bins are enumerated strictly ascending, each exactly once |
| Horizon.FirstCrossing | pipeline/fit.py:63-70 | the first adjacent pair going from at least 0.5 to below 0.5, or None when there is none |
| Horizon.BinPoints | pipeline/fit.py:30-34 | the binning loop computes the bins |
| Horizon.BuildCurve | pipeline/fit.py:39-43 | the curve loop computes the raw curve over the sorted bins |
| Horizon.SmoothCurve | pipeline/fit.py:46-49 | the smoothing loop computes the smoothed curve |
| Horizon.ChooseHorizon | pipeline/fit.py:57-70 | the crossing search computes the horizon |
| Horizon.EstimateHorizon | pipeline/fit.py:28-78 | the estimator returns the curve, the horizon and the slope proxy of its specification |
| Horizon.EmptyWithoutTimedRows | pipeline/fit.py:36-37 | the curve is empty iff no row is timed, and then the result is (0.0, 0.0, []) |
| Horizon.CurveBins | pipeline/fit.py:39-43 | the curve has a point for a bin iff a timed row falls in it; each success is that bin's mean |
| Horizon.BinScoresBinary | pipeline/fit.py:34 | binary scores give binary bins |
| Horizon.SuccessIsFraction | pipeline/fit.py:42 | with binary scores every success is a share of successes in [0, 1] |
| Horizon.RunningMinDecreasing | pipeline/fit.py:46-49 | the running minimum never increases |
| Horizon.SmoothedProfile | pipeline/fit.py:45-49 | the smoothed profile never increases, stays at most 1, and is below every earlier raw success |
| Horizon.CurveOfShaped | pipeline/fit.py:39-49 | the curve's bins strictly ascend, each duration is 2 to the power of its bin, and the smoothed profile never increases and never exceeds the raw success |
| Horizon.MinutesAscend | pipeline/fit.py:40-43 | minutes ascend along the curve |
| Horizon.FractionBounds | pipeline/fit.py:66-67 | the interpolation fraction lies in [0, 1) |
| Horizon.CrossingExists | pipeline/fit.py:57-65 | when neither "all at least 0.5" nor "all below 0.5" holds, a crossing exists |
| Horizon.CrossingLog2Bounds | pipeline/fit.py:66-68 | the interpolated log2 lies between the two bins |
| Horizon.CrossingHorizon | pipeline/fit.py:63-70 | the crossing horizon lies between the durations of the crossing pair |
| Horizon.HorizonWithinRange | pipeline/fit.py:54-70 | all-high gives the longest duration (right-censored); all-low gives the shortest; otherwise the horizon lies between them; it is always positive |
| Horizon.LowFirstBinFixesHorizon | pipeline/fit.py:46-60 | a first bin below 50% makes the horizon the shortest duration |
| Horizon.EstimateWithinObservedDurations | pipeline/fit.py:28-70 | a group with a timed row has a positive horizon within its observed durations |
| Horizon.FourDurationScenario | tests/test_fit.py:4-14 | the test's four points give four bins and a horizon of 2^3.5, between 8 and 16 minutes |
| Doubling.DatedRows | pipeline/fit.py:82 | the rows with a non-empty release date, at their kept positions: same count, same order, repeats kept, and nothing else |
| Doubling.ParsedRows | pipeline/fit.py:86-95 | one entry per row whose date parses, in row order, holding the parsed day and max(horizon, 1e-6); no other entry |
| Doubling.ParseDates | pipeline/fit.py:86-95 | the parsing loop computes the parsed rows, skipping unparseable dates |
| Doubling.ParsedCount | pipeline/fit.py:86-95 | when every date parses, no row is dropped |
| Doubling.DayLeTotalPreorder | pipeline/fit.py:100 | ordering by date is a total preorder |
| Doubling.MonthOffsets | pipeline/fit.py:101-102 | one month offset per parsed row |
| Doubling.MonthOffsetsAscend | pipeline/fit.py:100-102 | after the sort, offsets start at 0 and never decrease, and no row is lost |
| Doubling.DoublingMonths | pipeline/fit.py:81-107 | None iff fewer than two dated rows, fewer than two parsed dates, or a non-positive slope; otherwise the positive reciprocal of the slope |
| Doubling.ComputeDoublingMonths | pipeline/fit.py:81-107 | the imperative function computes the doubling time of its specification |
| Fit.RoundHalfEven | pipeline/fit.py:131 | the rounded integer is within 0.5 of its argument |
| Fit.RoundProperties | pipeline/fit.py:131-132 | rounding to n decimals moves a value by at most half a unit; a positive result comes from a positive value; zero stays zero |
| Fit.RoundsToZero | pipeline/fit.py:131 | four-decimal rounding sends [0, 0.00005) to 0 |
| Fit.DateSet | pipeline/fit.py:125 | the set holds exactly the non-empty release dates of the group |
| Fit.LatestDateIsMax | pipeline/fit.py:125-130 | the release date is "" iff no point has one; otherwise it is a point's date and no date is greater |
| Fit.RowsOfDomain | pipeline/fit.py:141 | one entry per model row of the domain, in row order, repeats kept, and nothing else |
| Fit.PositiveHorizons | pipeline/fit.py:142 | the horizon of each row with a positive horizon, one entry per such row, in row order, repeats kept |
| Fit.SortKeysArePreorders | pipeline/fit.py:161-162 | the two sort keys are total preorders |
| Fit.GroupRecords | pipeline/fit.py:114-119 | the grouping loop builds both dictionaries |
| Fit.LatestReleaseDate | pipeline/fit.py:125-130 | the method computes the latest release date |
| Fit.FitPair | pipeline/fit.py:124-136 | one pair's row and curve entry |
| Fit.FitModelDomains | pipeline/fit.py:121-136 | the pair loop computes one row and one curve per pair, in insertion order |
| Fit.SummarizeDomain | pipeline/fit.py:140-157 | one domain's summary |
| Fit.SummarizeDomains | pipeline/fit.py:138-157 | the domain loop computes one summary per domain, in insertion order |
| Fit.FitAll | pipeline/fit.py:110-164 | the fitter computes the payload of its specification |
| Fit.PayloadShape | pipeline/fit.py:159-164 | domain summaries are sorted by domain and rows by (domain, model); one summary per distinct domain, and one row and one curve per distinct pair |
| Fit.ModelDomainRowPerPair | pipeline/fit.py:121-136 | a pair has a row iff some record has that model and domain; the row is the fit of exactly those records |
| Fit.CurvePerPair | pipeline/fit.py:136 | a pair has a curve iff it occurs; the curve is that of its records |
| Fit.CountedDomainModelHasRow | pipeline/fit.py:141-153 | a model counted for a domain has a model row with that model and domain |
| Fit.RowModelCounted | pipeline/fit.py:141-153 | every model row's model is counted for its domain |
| Fit.DomainRowModels | pipeline/fit.py:141-153 | a model is counted for a domain iff it has a row there |
| Fit.DomainModelsPairs | pipeline/fit.py:153 | a model has a record in a domain iff the pair occurs |
| Fit.ModelsOfDomain | pipeline/fit.py:141-153 | the models counted for a domain are the models with a record in it |
| Fit.DomainSummaryPerDomain | pipeline/fit.py:138-157 | a domain has a summary iff it occurs; the summary is the fit of exactly its records; `points` counts them and `models` counts their distinct models |
| Fit.RoundedHorizonFilter | pipeline/fit.py:131-142 | a row passes the `> 0` filter only if its fitted horizon was positive; fitted horizons below 0.00005 are filtered out; the rounded value is within 0.00005 |
| Export.TablesWellFormed | pipeline/export.py:11-48 | every listed price is positive; every preset's shares lie in (0, 1) and sum to 1 |
| Export.CountedRows | pipeline/export.py:75-78 | only rows with a non-empty, non-"human" model are kept |
| Export.Count | pipeline/export.py:100-113 | a count never exceeds the number of rows |
| Export.TallyCounts | pipeline/export.py:85-113 | runs_total counts the rows; runs_with_tokens counts rows with positive tokens and minutes; runs_success counts those that succeeded; success ≤ with-tokens ≤ total; totals are non-negative and positive iff their counter is |
| Export.TallyTotals | pipeline/export.py:103-113 | tokens_total and minutes_total are the sums over the rows with positive tokens and minutes; tokens_success and minutes_success the sums over those that also succeeded; the empirical rates are one per such row with a positive cost, in row order, each cost / tokens × 1e6 |
| Export.TallyDomains | pipeline/export.py:101 | the domain set is exactly the rows' domain labels ("unknown" for empty) |
| Export.TallyAppend | pipeline/export.py:99-113 | tallying one more row adds that row to the tally |
| Export.AddRow | pipeline/export.py:99-113 | the in-place counter update adds the row |
| Export.TalliedSkip | pipeline/export.py:76-78 | a skipped row leaves the accumulated state unchanged |
| Export.TalliedExisting | pipeline/export.py:85-113 | a row of a known model updates only that model's tally |
| Export.TalliedNew | pipeline/export.py:85-113 | a row of a new model appends the model and starts its tally |
| Export.TallyRows | pipeline/export.py:73-113 | after the loop, the models appear in first-seen order, each with the tally of its counted rows |
| Export.EstimateScenarios | pipeline/export.py:124-134 | the preset loop computes the scenarios |
| Export.ReportTally | pipeline/export.py:116-154 | the report of one tally |
| Export.BuildAgentEconomics | pipeline/export.py:72-160 | the function computes the sorted model list of its specification |
| Export.CountedRowsFilter | pipeline/export.py:75-78 | the counted rows are the filtering comprehension on "model is neither empty nor human": one entry per counted row, in row order, nothing else |
| Export.CountedRowsConcat | pipeline/export.py:75-78 | filtering distributes over concatenation |
| Export.UncountedRowDropped | pipeline/export.py:76-78 | an uncounted row disappears from the filtered rows |
| Export.UncountedRowIgnored | pipeline/export.py:76-78 | inserting a row with an empty or "human" model anywhere leaves the result unchanged |
| Export.MembersOfCounted | pipeline/export.py:75-78 | filtering keeps all rows of a counted model |
| Export.CountedModelOccurs | pipeline/export.py:75-85 | a model with a counted row is non-empty, not "human" and occurs in the rows |
| Export.OccurringModelCounted | pipeline/export.py:75-85 | a non-empty, non-"human" model that occurs has a counted row |
| Export.CountedModels | pipeline/export.py:75-85 | a model gets an entry iff it is non-empty, not "human" and occurs |
| Export.EntryPerModel | pipeline/export.py:73-154 | one entry per distinct counted model; it reports all of the model's rows, and runs_total is their number |
| Export.ReportCounters | pipeline/export.py:100-122 | the counters are ordered; each rate is None iff no run fed its denominator |
| Export.ReportRates | pipeline/export.py:117-146 | tokens per minute is the ratio of the token sum to the minute sum over the rows with tokens, and tokens per success minute the same over the successful ones (None when the minutes sum to zero); rates are non-negative; hourly rates are the per-minute ones times 60; a price is assumed iff the model is in the table |
| Export.ScenariosPriced | pipeline/export.py:127-133 | each scenario blends the input and output prices by its preset and prices an hour at the hourly token rate |
| Export.TallyScenarios | pipeline/export.py:124-134 | a tally has scenarios iff it is priced and has success minutes, and they are priced at the hourly success rate |
| Export.ReportScenarios | pipeline/export.py:124-134 | scenarios are empty iff the model is unpriced or has no success; otherwise one per preset, priced at the hourly success token rate |
| Export.ReportDomains | pipeline/export.py:101-138 | a report's domains are sorted, distinct and exactly its rows' labels |
| Export.BySuccessHourPreorder | pipeline/export.py:156-160 | the sort key (None as infinity) is a total preorder |
| Export.ModelsSorted | pipeline/export.py:156-160 | the output permutes the per-model reports; it ascends by tokens per success hour, with entries that have no rate last |
| Export.ModelsStable | pipeline/export.py:156-160 | entries whose tokens per success hour compare equal keep the first-seen order of their models |
| Export.TiedWithUnrated | pipeline/export.py:156-160 | an entry without a rate ties with exactly the entries without one |
| Export.UnratedInOrder | pipeline/export.py:156-160 | the entries without a rate appear in their models' first-seen order |

## Left out

- Reading and writing files (`load_unified_records`, `write_json`, snapshots), the `generated_at` timestamp and console output are left out. The fitter's input is a sequence of records, and its output is the payload value.
- Floating point is modelled as exact reals. Integer bins and counts are unbounded integers.
- `math.log2`, `2 ** x` for a fractional `x`, `np.polyfit`, `np.quantile`, `statistics.median` and the two `datetime` parsers are foreign numeric code. They are fields of `Numerics.Routines`. Only monotonicity, positivity and exactness on integers are assumed of `2 ** x`.
- Dates are reduced to day numbers by the date parser. Time of day, time zones, and the `TypeError` from comparing aware with naive datetimes are not modelled.
- `str.lower` is modelled on ASCII letters only. Unicode case mapping is not modelled.
- `Fit.RoundHalfEven`: Python's `round` rounds the binary float, not the exact real. Ties are broken to even on the real value, which can differ from the float result at exact halves.
- The dictionary returned by `_build_agent_economics` also echoes `SPLIT_PRESETS`, `PRICING_SOURCES`, `SPLIT_RATIONALE_SOURCES` and fixed notes. Only `models` is modelled; the rest are constants.
- Cost scenarios are a sequence in preset order rather than a dictionary keyed by preset name. Each scenario carries its preset.
- Transform.NormalizeRun: raw runs are typed (`Transform.RawRun` holds strings, integers and reals, or nothing). The `str`, `float` and `int` coercions of `normalize_run` are not modelled, and neither is the `ValueError` they raise on ill-typed JSON fields (`pipeline/transform.py:138-169`). Examples are a non-numeric `human_minutes`, `score_cont` or `tokens_count`, a fractional `score_binarized` truncated by `int`, a numeric string converted by `float`, an empty-string token count read as `None`, and a numeric alias turned into a string.
- `_build_agent_economics` reads `tokens_count` and `generation_cost` as numbers or nothing. Other JSON types, which the `isinstance` checks skip, are represented as `None`.
- `estimate_horizon` assumes binary scores only where stated (`Horizon.SuccessIsFraction`). The estimator itself takes any integer score, as the source does.
- `ingest.py`, `charts.py`, `changelog.py`, `common.py` and the `main` of `transform.py` and `export.py` are file and network plumbing. They are not part of this model.
