# Codec benchmark of ms-bencher, modelled in Dafny

`bench-codecs.ts` benchmarks ClickHouse column codecs. For each codec in a
fixed list, it drops and recreates the table `t_perf` with a column using
that codec. It then runs 1000 cycles of INSERT (10,000,000 generated rows),
SELECT and TRUNCATE, timing each INSERT and each SELECT. The two timing
series are summarised with a boxplot library, and one select record and
one insert record are pushed per codec. Both record lists are sorted by
median, stably. Each list is appended to its log file, and a closing DROP
follows. If any query throws, the `.catch` handler of the entry point
issues one more DROP.

Throughout, a query *throws* when awaiting it throws (its promise is
rejected), or when it is a CREATE or INSERT and the `assert(resp['r'] === 1)`
after it fails.

The model follows the script module by module:

- `Ranges` (`ranges.dfy`) is the `range(from, to, step)` helper. Its
  `Math.floor` is written out, because Dafny's `/` is Euclidean.
- `Statements` (`statements.dfy`) holds the five statements and their SQL
  text: DROP, CREATE with a codec, INSERT for the linear or random data
  type, SELECT and TRUNCATE. Only CREATE and INSERT responses are checked
  by the script.
- `Records` (`records.dfy`) holds the boxplot summary, the `MeasureCodec`
  row, and `toFixed(d)` read back as the integer count of 10^-d units it
  renders.
- `Ranking` (`ranking.dfy`) is the stable sort by median. It has two parts.
  The first is a functional insertion sort, `SortByMedian`, with its
  properties: sorted, a permutation, stable, and the only sorted stable
  rearrangement. The second is an in-place insertion sort on an array,
  proved equal to `SortByMedian`.
- `BenchSpec` (`bench_spec.dfy`) states the run as values. It defines the
  planned trace of statements and the first query that throws. It
  also defines the timing sequences, the records, and the resulting
  `Execution`: the queries issued, the reports appended, and whether the
  run threw.
- `Bench` (`bench.dfy`) is `exec` as imperative code. It has the codec
  loop, the cycle loop over `range(1, 1000, 1)`, the timing arrays, the
  `jsonObject` round trip, the pushes, the two sorts on arrays, the
  appends, the final DROP, and the entry point with its catch handler.
  Every method is proved equal to the specification functions of `BenchSpec`,
  `Ranking` and the `boxplot` parameter.
- `BenchProps` (`bench_props.dfy`) holds properties of whole runs: when
  and where a run stops, what a complete run produces, and which responses
  can never change the outcome.

The ClickHouse client, the clock and the boxplot library are parameters:

- `resp: nat -> Response` says how the promise of the n-th query of a run
  settles (counted from 0). A `Response` is either rejected or resolved
  with a given value of the field `r`.
- `clock: nat -> real` is the time in seconds measured around the n-th
  query.
- `boxplot: seq<real> -> Summary` is the statistics function.

## Model

| member | source | states |
|---|---|---|
| Ranges.RangeShape | packages/backend/apps/ms-bencher/src/bench-codecs.ts:31-32 | the count of `range(from, to, step)` without division: for a positive step it is empty exactly when from > to, and otherwise its last term is at most `to` while one more term would pass it; for a negative step the same holds with the directions reversed |
| Ranges.RangeWithin | packages/backend/apps/ms-bencher/src/bench-codecs.ts:31-32 | with a positive step every element lies in [from, to], and one more step would pass `to` |
| Ranges.RangeMembership | packages/backend/apps/ms-bencher/src/bench-codecs.ts:31-32 | with a positive step, x is an element exactly when from <= x <= to and x - from is a multiple of the step |
| Ranges.CycleCounter | packages/backend/apps/ms-bencher/src/bench-codecs.ts:89-92 | the cycle counter `range(1, 1000, 1)` is exactly 1, 2, ..., 1000 |
| Statements.CreateEmbedsCodec | packages/backend/apps/ms-bencher/src/bench-codecs.ts:67-75 | the CREATE statement contains `CODEC(<codec>)` with the codec string verbatim |
| Statements.InsertGeneratesTenMillionRows | packages/backend/apps/ms-bencher/src/bench-codecs.ts:90-98 | both the linear and the random INSERT select from `numbers(10000000)` |
| Records.ToFixedNearest | packages/backend/apps/ms-bencher/src/bench-codecs.ts:122-131 | `toFixed(d)` is the integer nearest to x*10^d, and a tie is resolved away from zero |
| Records.ToFixedMonotone | packages/backend/apps/ms-bencher/src/bench-codecs.ts:126 | rounding with `toFixed` never inverts the order of two values |
| Records.MakeRecordMedian | packages/backend/apps/ms-bencher/src/bench-codecs.ts:120-135 | a pushed record names its codec, and its median is the library's median to within half of 10^-4 s |
| Ranking.SortByMedianInPlace | packages/backend/apps/ms-bencher/src/bench-codecs.ts:154-155 | the in-place sort of the report array leaves `SortByMedian` of its old contents |
| Ranking.SortByMedianSorted | packages/backend/apps/ms-bencher/src/bench-codecs.ts:154 | the ranking is ascending by median |
| Ranking.SortByMedianPermutation | packages/backend/apps/ms-bencher/src/bench-codecs.ts:154 | the ranking holds exactly the records it was given, as a multiset |
| Ranking.SortByMedianStable | packages/backend/apps/ms-bencher/src/bench-codecs.ts:154 | records with equal medians keep their original relative order |
| Ranking.StableSortIsSortByMedian | packages/backend/apps/ms-bencher/src/bench-codecs.ts:154-155 | any sequence that is sorted by median and keeps the ties of the input, whatever stable algorithm produced it, equals `SortByMedian` of the input |
| Ranking.RankingIsSortByMedian | packages/backend/apps/ms-bencher/src/bench-codecs.ts:154-155 | t is sorted, a permutation of s and stable with respect to s if and only if t is `SortByMedian(s)` |
| BenchSpec.FirstFailure | packages/backend/apps/ms-bencher/src/bench-codecs.ts:77-78 | the first query from a given position that throws, if there is one: it fails, no earlier one fails, and None means none fails |
| BenchSpec.PlanShape | packages/backend/apps/ms-bencher/src/bench-codecs.ts:64-112 | the plan is, per codec, DROP, CREATE with that codec, then 1000 times INSERT, SELECT and TRUNCATE, and it ends with one DROP |
| Bench.Exec | packages/backend/apps/ms-bencher/src/bench-codecs.ts:36-169 | `exec` issues the plan up to its first throwing query. It appends the two ranked reports unless a codec's query threw, and it throws exactly when some query does |
| Bench.SortReport | packages/backend/apps/ms-bencher/src/bench-codecs.ts:154-155 | sorting a report's array gives `SortByMedian` of the report |
| Bench.RunCodecs | packages/backend/apps/ms-bencher/src/bench-codecs.ts:64-152 | the codec loop either stops at the plan's first failure or issues every codec block and produces one select and one insert record per codec, in codec order |
| Bench.RunCodec | packages/backend/apps/ms-bencher/src/bench-codecs.ts:64-151 | one codec block: DROP, CREATE and the cycles, stopping at a failure; on success it gives the two records built from the boxplots of that codec's timings |
| Bench.Summarize | packages/backend/apps/ms-bencher/src/bench-codecs.ts:114-118 | reading `jsonObject` back gives the select boxplot and the insert boxplot, so the second store does not overwrite the first |
| Bench.RunCycles | packages/backend/apps/ms-bencher/src/bench-codecs.ts:84-112 | the cycle loop either stops at a failure or issues the 1000 cycles, and the timing arrays then hold that codec's 1000 INSERT and 1000 SELECT times, in order |
| Bench.RunCycle | packages/backend/apps/ms-bencher/src/bench-codecs.ts:93-111 | one cycle: INSERT, whose time is pushed once its response passes the check, then the timed SELECT and the TRUNCATE |
| Bench.Query | packages/backend/apps/ms-bencher/src/bench-codecs.ts:65-167 | every awaited query (lines 65, 77-78, 100-101, 107, 111 and 167): issuing the next planned statement throws exactly when its promise is rejected, or when it is a CREATE or INSERT with `r` other than 1, and then it is the plan's first failure |
| Bench.RunBenchmark | packages/backend/apps/ms-bencher/src/bench-codecs.ts:171-173 | the entry point is `exec(LINEAR, 'DateTime')` on the 14 codecs, plus one DROP from the catch handler when it throws |
| BenchProps.ThrownIffSomeFailure | packages/backend/apps/ms-bencher/src/bench-codecs.ts:171-173 | a run throws exactly when some planned query throws, by a rejected promise or a failed `assert` |
| BenchProps.AbortAtFirstFailure | packages/backend/apps/ms-bencher/src/bench-codecs.ts:77-78 | when the first throwing query is inside the codec blocks, the run issues the plan up to it and then only the catch DROP, and it appends no report |
| BenchProps.FinalDropThrows | packages/backend/apps/ms-bencher/src/bench-codecs.ts:164-167 | when only the closing DROP is rejected, both reports are already appended, and the catch DROP follows the whole plan |
| BenchProps.UncheckedResponsesIgnored | packages/backend/apps/ms-bencher/src/bench-codecs.ts:107-111 | changing the resolved value of any DROP, SELECT or TRUNCATE response leaves the run unchanged |
| BenchProps.CompletedRun | packages/backend/apps/ms-bencher/src/bench-codecs.ts:154-167 | with no failure, the run issues the whole plan and appends the select report and then the insert report. Each one is a ranking of its records: sorted, a permutation and stable |
| BenchProps.RecordsPerCodec | packages/backend/apps/ms-bencher/src/bench-codecs.ts:120-151 | there is one select record and one insert record per codec, in codec order, each naming its codec, and each median is within half of 10^-4 s of the boxplot median of that codec's own timings |
| BenchProps.TimingsOwnBlock | packages/backend/apps/ms-bencher/src/bench-codecs.ts:84-109 | each codec has 1000 insert and 1000 select timings, each the time of that codec's own INSERT or SELECT query of the same cycle |
| BenchProps.CreateRefused | packages/backend/apps/ms-bencher/src/bench-codecs.ts:77-78 | a first CREATE whose `r` is not 1 gives the trace DROP, CREATE, DROP, with no report and the run throwing |
| BenchProps.SecondInsertRefused | packages/backend/apps/ms-bencher/src/bench-codecs.ts:100-101 | a second INSERT whose `r` is not 1 gives the trace DROP, CREATE, INSERT, SELECT, TRUNCATE, INSERT, DROP, with no report and the run throwing |
| BenchProps.AllOkRun | packages/backend/apps/ms-bencher/src/bench-codecs.ts:64-167 | when every response is `r = 1`, a run issues 3002 queries per codec plus the closing DROP, appends both reports and does not throw |
| BenchProps.AllOkQueryCount | packages/backend/apps/ms-bencher/src/bench-codecs.ts:41-56 | the script's 14 codecs make 42,029 queries when every response is `r = 1` |

## Left out

- The ClickHouse client and its network I/O are left out. Each query's outcome comes from the oracle `resp`, and the response field `r` is an integer. The strict comparison `=== 1` is modelled as integer equality.
- The epochjs timers are the `clock` parameter, and elapsed times are reals. The timer is modelled as measuring exactly the query it surrounds.
- The internals of the boxplot library (`@sgratzl/boxplots`) are left out. `boxplot` is an uninterpreted function, and `Summary` only has the shape of its result.
- `toFixed` returns a string. The model keeps the integer count of units it denotes; JavaScript coerces the string back to that number in the comparator. Like `toFixed` itself, the model picks the integer nearest to the exact product x * 10^d, so no rounding error is left out.
- NaN or infinite statistics are not modelled. The comparator would then yield NaN, and the ranking would depend on the engine.
- The `as-table` rendering of the sorted records is left out. The appended report is kept as the sorted record sequence.
- The log file paths, `getAppRootDir`, the `moment` date and failures of `syncAppendToFile` are left out. A log file is named only by whether it holds the select or the insert report.
- The `uuid` import is not used by the script. The `console.log('finish')` of the success handler is not modelled.
- The catch handler's DROP is not awaited, so its outcome is ignored. The model records that it is issued and nothing more.
- The CREATE text keeps its words and punctuation. The newline and indentation before `CREATE` and after the closing `;` are dropped, and the whitespace between words is collapsed to single spaces.
- The codec list is a parameter of `Exec`. `RunBenchmark` passes the script's 14 codecs, which mirrors the constant inside `exec`.
- Ranges: non-integer arguments and a step of 0 are not modelled. The script only calls `range(1, 1000, 1)`.
- Ranking.SortByMedianInPlace: the engine's sort algorithm is not modelled. An insertion sort stands in for it, and `StableSortIsSortByMedian` proves that every stable sort by median gives the same result.
- Bench.RunCodecs, Bench.RunCodec, Bench.RunCycles, Bench.RunCycle and Bench.Query split the single body of `exec` into methods, one per loop and per awaited query. The order of operations is unchanged.
