# loadSamples model

A Dafny model of `elm/loadSamples.js`. This is the data feeder of a
database-monitoring benchmark. It does two things:

- `getData` fabricates one batch of fake query activity, keyed
  `cluster<i>` and `cluster<i>slave` for i in 1..ENV.rows.
- `loadSamples` merges that batch into the process-wide table
  `state.databases`. The table keeps, per database, a rolling history of
  the 5 most recent samples.

The model has three modules, one file each.

- `Decimal` (`decimal.dfy`): the base-10 rendering that `"cluster" + i`
  applies to the loop counter. It has a parser as its inverse, used to show
  the rendering is injective.
- `Generator` (`generator.dfy`): `getData`.
  - Math.random() is a parameter `rand: nat -> real`, where `rand(k)` is the
    k-th value returned during the call.
  - For one database the draws come in source order: first the count (line
    28), then for each query the elapsed time (37), waiting (39), idle marker
    (42) and vacuum marker (46).
  - `MakeQuery`, `GenQueries`, `Snapshot` and `DbStart` say which draws
    build which query. `Generated` states what one call returns.
  - The imperative steps are methods proved against those functions: the
    key-creation loop, the push loop, the marker overwrites, and an in-place
    sort of an array with the source's comparator `b.elapsed - a.elapsed`.
- `History` (`history.dfy`): `loadSamples`.
  - `Retain`, `Merged` and `MergeAll` describe the rolling table as values.
  - Class `State` holds `rows` (ENV.rows), `databases` (state.databases) and
    `loadCount`. `LoadSamples` and the per-key loop `MergeBatch` change them
    in place.

Numbers are exact reals. The batch time (`new Date().getTime() / 1000`) is a
parameter `startAt` of `LoadSamples`.

Under the two text overwrites the generic text has probability
0.8 × 0.9 = 72%, idle 18% and vacuum 10%. `rows` may be 0, which gives an
empty batch.

## Model

| member | source | states |
|---|---|---|
| Decimal.ParseNatToString | elm/loadSamples.js:16 | parsing the decimal rendering of i gives back i |
| Decimal.NatToStringInjective | elm/loadSamples.js:16-20 | different counters render to different digit strings |
| Decimal.NatToString | elm/loadSamples.js:16 | the rendering is a non-empty digit string with no leading zero |
| Generator.NameInjective | elm/loadSamples.js:16-20 | `cluster<i>` and `cluster<i>slave` each determine i, and no cluster name equals a slave name |
| Generator.ClusterNamesAt | elm/loadSamples.js:15-23 | position 2i-2 of the key order holds `cluster<i>` and position 2i-1 holds `cluster<i>slave` |
| Generator.ClusterNamesDistinct | elm/loadSamples.js:15-23 | the created keys are pairwise different |
| Generator.ClusterNamesMembership | elm/loadSamples.js:15-23 | a key is created iff it is `cluster<i>` or `cluster<i>slave` for some i in 1..rows |
| Generator.CreateDatabases | elm/loadSamples.js:15-23 | the first loop produces the keys in creation order, each with an empty query list |
| Generator.QueryCount | elm/loadSamples.js:28 | the per-database query count lies in 1..10 |
| Generator.QueryCountIsFloor | elm/loadSamples.js:28 | for a draw x in [0, 1) the count equals floor(x * 10 + 1) |
| Generator.QueryTextCases | elm/loadSamples.js:38-48 | the text is "vacuum" iff the vacuum draw is below 0.1, whatever the idle draw; "<IDLE> in transaction" iff only the idle draw is below 0.2; the generic text otherwise |
| Generator.DrawQuery | elm/loadSamples.js:30-48 | building the query and then overwriting its text for idle and then for vacuum gives the query made from its four draws |
| Generator.DrawQueries | elm/loadSamples.js:29-51 | the push loop yields r queries, the i-th one made from the draws at offset 4i |
| Generator.MakeQueryPlausible | elm/loadSamples.js:37-48 | with draws in [0, 1) a query has elapsed in [0, 15) and one of the three texts |
| Generator.GenQueriesPlausible | elm/loadSamples.js:29-51 | every pushed query is plausible |
| Generator.SnapshotPlausible | elm/loadSamples.js:28-51 | a database's unsorted list has 1 to 10 queries, all plausible |
| Generator.Swap | elm/loadSamples.js:53-55 | exchanges two neighbours and changes nothing else |
| Generator.InsertAt | elm/loadSamples.js:53-55 | one insertion step extends the sorted prefix, leaves the suffix and keeps the multiset |
| Generator.SortByElapsed | elm/loadSamples.js:53-55 | the array ends non-increasing in elapsed and is a permutation of its old contents |
| Generator.SortQueries | elm/loadSamples.js:53-55 | the sorted list is non-increasing in elapsed and a permutation of the pushed list |
| Generator.DrawDatabase | elm/loadSamples.js:26-55 | one database's list is a longest-first permutation of the queries drawn for it |
| Generator.FillDatabases | elm/loadSamples.js:25-56 | starting from empty lists, every key, in key order, holds its sorted queries drawn right after the previous key's draws, appended to its list, and no key is added |
| Generator.GetData | elm/loadSamples.js:8-59 | the batch has the given time, exactly the created keys in creation order, and under each key its sorted draws |
| Generator.GeneratedKeys | elm/loadSamples.js:15-25 | a batch has exactly 2 * rows keys, which are exactly `cluster<i>` and `cluster<i>slave` for i in 1..rows |
| Generator.GeneratedNamesFixed | elm/loadSamples.js:15-23 | two batches for the same rows have the same keys in the same order, whatever the clock and the draws |
| Generator.GeneratedQueries | elm/loadSamples.js:28-55 | every list in a batch has 1 to 10 queries, is sorted longest first, and holds only plausible queries |
| History.Retain | elm/loadSamples.js:80-82 | trimming keeps min(n, 5) samples and they are the last ones |
| History.RetainIsAppended | elm/loadSamples.js:75-82 | push-then-trim puts the new sample last and drops only the oldest ones, and no other result satisfies that |
| History.RetainAppend | elm/loadSamples.js:80-82 | trimming after every push keeps what one trim at the end would keep |
| History.Merged | elm/loadSamples.js:65-83 | after a merge the table's keys are the old keys plus the batch's keys, and entries of keys absent from the batch are unchanged |
| History.MergedEntry | elm/loadSamples.js:65-82 | every key of the batch has an entry, whose name is the old one or, for a new entry, the key; its samples are the old samples plus the new sample {start_at, queries}, trimmed from the front |
| History.FirstMerge | elm/loadSamples.js:65-82 | merging into an empty table gives one entry per key, named after it and holding one sample |
| History.MergedWellFormed | elm/loadSamples.js:68-82 | a merge keeps every entry filed under its own name with at most 5 samples |
| History.MergeAllHistory | elm/loadSamples.js:61-83 | after any number of merges a database holds the last 5 of its old samples followed by all samples merged since |
| History.MostRecentSamples | elm/loadSamples.js:75-82 | starting from an empty table, after n merges a database holds the samples of the last min(n, 5) batches, oldest first |
| History.State.constructor | elm/loadSamples.js:5-6 | the table starts empty and the counter starts at 0 |
| History.State.LoadSamples | elm/loadSamples.js:61-64 | the counter goes up by one; the batch is what getData produces; the table becomes the merge of the old table with the batch |
| History.State.MergeBatch | elm/loadSamples.js:65-83 | the loop over the batch's keys leaves the table equal to the merge of the old table with the batch |
| History.State.PushSample | elm/loadSamples.js:66-82 | for one key: creates the entry when it is missing, pushes the sample, trims to 5; no other key changes |

## Left out

- `setState(state)` and `setTimeout(loadSamples, ENV.timeout)` (lines 85-86)
  are a rendering callback and timer scheduling. One `LoadSamples` call is one
  refresh, and the next one is not rescheduled.
- The clock reading `new Date().getTime() / 1000` is the parameter `startAt`.
- `Math.random()` is the parameter `rand`. Only `GeneratedQueries` and the
  plausibility lemmas need its values to lie in [0, 1).
- Floating-point arithmetic is not modelled. Elapsed times are exact reals,
  so IEEE rounding of `Math.random() * 15` and of the comparator's
  subtraction is not captured.
- The always-null `canvas_*` fields of a query are dropped.
- The `{queries: [...]}` wrapper of a batch entry is dropped. A batch maps a
  key straight to its query list.
- The undeclared global `data` in `getData` is modelled as a local result.
- Generator.SortByElapsed: states that the result is ordered longest first
  and is a permutation, but not that queries with equal elapsed times keep
  their push order. JavaScript requires a stable sort, and the insertion sort
  of the model is one (it moves a query only past strictly shorter ones), but
  the order of ties is deliberately left open in the contract, because the
  extra bookkeeping of original positions is not needed by anything else.
- JavaScript number-to-string output for counters of 1e21 and above
  (exponent notation) is not modelled. Counters are rendered as plain
  digits.
- In JavaScript a sample's query list is shared between the batch and the
  table. The model stores values, so later mutation through such an alias is
  not captured. The source does not mutate it.
- Generator.QueryCount: for draws outside [0, 1), which Math.random() never
  returns, the count is clamped to 1..10 rather than following
  floor(x * 10 + 1).
- ENV.rows is 100 in the source. The model takes `rows` as a parameter of
  the `State` constructor.
