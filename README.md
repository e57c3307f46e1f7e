# Kubernetes cluster monitor: mock data generator

The service exposes three read endpoints for a fictional cluster, `production-cluster-01`,
running six services:

- `GET /logs` returns a batch of log lines spread over the last hour.
- `GET /commit_history` returns git-log style commits spread over the last 30 days.
- `GET /metrics` returns one performance record per service, with an anomaly flag.

All content is random. Under the randomness is a deterministic skeleton, and that skeleton is
what this project models:

- **Allotment** (`Allotment`): the requested count is split evenly across the services, and the
  first `n % 6` services get one extra record.
- **Collection** (`Collection`): the nested loop both list endpoints run. It walks the services
  in catalog order and appends each service's share of records. It is written once as a generic
  method and used by both handlers.
- **Sorting** (`Sorting`): the list's in-place sort by timestamp, ascending for logs and
  descending for commits. It is an insertion sort by adjacent swaps on an array.
- **Records** (`Logs`, `Metrics`, `Commits`): the per-record generators and the two text formats.
  These are the log line `<timestamp> [<LEVEL>] [<service>] <message>` and the git-log commit
  block.
- **Handlers** (`Handlers`): the three endpoints, with the query bounds they declare.
- **Support** (`Catalog`, `Text`, `Wrappers`): the fixed name tables, and the string helpers the
  formats are proved against (numerals, join and split, and a generic render/parse pair for
  fixed literal layouts).

How the model treats what it cannot compute:

- **Randomness.** Every random draw is an input. A generator takes a draw value (`MessageDraw`,
  `MetricsDraw`, `CommitDraw`, ...) whose fields are the values the source's `random` calls
  produce, with each call's range written as a predicate (`...DrawInRange`). A list endpoint
  takes a stream `draws: nat -> D`; record number `k` in generation order uses `draws(k)`.
- **Time.** The current time is the parameter `now`, in integer microseconds since some epoch.
  The three ways the source turns a time into text (`strftime` to milliseconds, `strftime` to
  seconds, `isoformat`) are the functions of a caller-supplied `Handlers.Clock`.
- **Decimals.** Every `round(x, 2)` value is an integer count of hundredths, so 85.5 % CPU is
  `8550`. The `random()` roll that picks the leak band is a `real` in `[0, 1)`.

Each formatter has a parser as its partner, and the proofs show that parsing gives back the
formatted values. The whole-list results (allotment, collection, the sorted permutation) are
tied to specification functions: `Allotment.AllotPrefix`, `Collection.Collected`,
`Handlers.GeneratedLogs` and `Handlers.GeneratedCommits`.

## Model

| member | source | states |
|---|---|---|
| Allotment.Allot | main.py:256-260 | a service gets `n / 6` or `n / 6 + 1` records, and gets the extra one exactly when its index is below `n % 6` |
| Allotment.AllotPrefixClosedForm | main.py:256-260 | the first `k` services together get `k * (n / 6) + min(k, n % 6)` records |
| Allotment.AllotmentSum | main.py:256-260 | the six allotments add up to the requested count `n` |
| Allotment.AllotPrefixMonotone | main.py:259-262 | counting more services never gives fewer records |
| Catalog.ServiceNamesArePlain | main.py:11-18 | no service name contains `]` or a line break |
| Collection.CollectAcrossServices | main.py:256-270 | the nested loop yields exactly the specification sequence `Collected` of all six services, which has `n` records |
| Collection.BlockInCollected | main.py:262-270 | within services `0..idx`, the `j`-th position of service `idx`'s block holds that service's record made from that position's draw |
| Collection.CollectedAt | main.py:259-270 | service `idx` occupies the positions from `AllotPrefix(n, idx)` for `Allot(n, idx)` records, and the record at position `r` there is made for that service from draw `r` |
| Collection.CollectedRecord | main.py:259-270 | every one of the `n` records was made for its position's owning service from the draw with its own index |
| Collection.CollectedAll | main.py:262-270 | a property that every made record has holds for every collected record |
| Sorting.SortByKey | main.py:273 | after the in-place sort the array is ordered by key (non-decreasing, or non-increasing when descending) and holds the same multiset of elements |
| Sorting.SortList | main.py:326 | sorting a list gives an ordered permutation of it, of the same length |
| Logs.LevelName | main.py:129 | the written level is one of `LOG_LEVELS` and contains neither `]` nor a line break |
| Logs.FormatReplacesFirstPlaceholder | main.py:140 | formatting a template replaces its first `{}` with the value and keeps the text on both sides, and leaves a template without `{}` unchanged |
| Logs.RenderMessage | main.py:130-140 | the message is the drawn template with its first `{}` replaced by the picked candidate value, or the template itself when it has no `{}` |
| Logs.ParseLogLineRoundTrip | main.py:142-143 | a log line parses back into its timestamp, level, service and message when the service name has no `]` |
| Logs.LogLineIsOneLine | main.py:143 | a line built from parts without line breaks has no line break |
| Logs.GenerateLogLine | main.py:127-143 | the generated line reads back into the clock's stamp, the drawn level, the service and the rendered message |
| Metrics.GenerateServiceMetrics | main.py:146-179 | the record names its service; `anomaly_detected` holds iff CPU > 85 %, p99 > 400 ms, error rate > 3 % or leak > 70; with in-range draws every field is in its range, the leak score is in `[0, 40]` or `[60, 95]` (never between), and it is in the upper band exactly when the roll is below 0.2 |
| Metrics.GeneratorReachesEveryWellFormedRecord | main.py:149-168 | every record satisfying those ranges and the anomaly rule is produced by some in-range draw |
| Metrics.ServiceMetricsList | main.py:351 | one record per service, in catalog order, record `i` named `SERVICES[i]` and generated from draw `i`, all well-formed when the draws are in range |
| Commits.HexString | main.py:184 | the hash has one lower-case hex character per drawn digit |
| Commits.SplitCommitMessageRoundTrip | main.py:188 | `type: text` splits back into its type and text when the type has no colon |
| Commits.GenerateCommit | main.py:182-203 | the commit names its service and the clock's date; the author is a developer; the message is `type: text` with the type from `COMMIT_TYPES` and the text from `COMMIT_MESSAGES`; with in-range draws the hash is 7 lower-case hex characters and the three stats are within 1..15, 5..200 and 1..100 |
| Commits.FormatCommitLayout | main.py:206-218 | the block is the nine fixed literals of the layout with the eight fields between them, in order |
| Commits.FormatCommitShape | main.py:206-218 | every block starts with `commit ` and ends with a line break |
| Commits.ParseFormatCommit | main.py:206-218 | a block parses back into exactly the commit it was rendered from when its text fields have no line break |
| Handlers.QueryValue | main.py:239 | an absent query takes the default; the value is accepted iff it lies within the bounds |
| Handlers.GeneratedLogsInWindow | main.py:252-266 | every generated log record is stamped within the hour before `now` |
| Handlers.GeneratedLogRecord | main.py:259-270 | record `r` is stamped at the start of the window plus its drawn offset, and holds the line generated for its owning service, whose name contains no `]` and no line break |
| Handlers.GetLogs | main.py:238-288 | `log_count` equals `num_logs`; the returned list is a timestamp-ordered permutation of the generated records, all inside the window; the response carries the cluster, the six services, the window's bounds and the lines joined by line breaks, which split back into those lines when no line holds a break |
| Handlers.ServeLogs | main.py:238-239 | `num_logs` defaults to 100; a value outside 1..10000 is rejected, and any other value yields that many logs |
| Handlers.GeneratedCommitsInWindow | main.py:305-319 | every generated commit is stamped within the 30 days before `now` |
| Handlers.GeneratedCommitRecord | main.py:312-323 | entry `r` is stamped at the start of the window plus its drawn offset, and holds the commit generated for its owning service at that time |
| Handlers.GetCommitHistory | main.py:291-340 | `total_commits` equals `num_commits`; the returned list is a permutation of the generated commits, newest first, all inside the window; the response carries the cluster, the services, the window's bounds and the formatted blocks joined by line breaks |
| Handlers.ServeCommitHistory | main.py:291-292 | `num_commits` defaults to 50; a value outside 1..1000 is rejected, and any other value yields that many commits |
| Handlers.GetMetrics | main.py:343-357 | the response carries the clock's `isoformat` of `now`, the cluster, and one record per service in catalog order, each well-formed for in-range draws |
| Text.SplitJoin | main.py:287 | lines without the separator, joined by it, split back into the same lines |

## Left out

- FastAPI routing, the response models' validation and JSON serialisation, and the uvicorn
  start-up are framework behaviour. The `Query` bounds appear as `Handlers.QueryValue` and the
  `Serve*` methods.
- `read_root` and `throw_error` are not modelled. They only sleep and return a random status
  code. Because `throw_error()` is evaluated while the list literal is built, every call to the
  root endpoint sleeps three seconds whichever status it returns. That is timing, not logic.
- The random distributions are not modelled: the level weights 0.6/0.25/0.1/0.05, uniformity,
  and the 20 % leak probability. A draw is any value in its range. The 0.2 threshold appears
  only as the branch condition on the roll.
- `datetime.now()`, `timedelta` arithmetic, `strftime` (with its millisecond truncation) and
  `isoformat` are the `now` parameter and the `Clock` functions. The format of their text is
  not modelled.
- Floating point is not modelled: the `uniform` draws, `round(..., 2)` and comparing floats
  with integer thresholds. Values are exact hundredths.
- Sorting.SortByKey: proves ordered and permutation but not stability. Python's sort keeps
  records with equal timestamps in generation order; here they may come out in either order.
- Logs.RenderMessage: gives the effect of `str.format` on templates with at most one `{}`
  (every catalog template is like that). Escaped braces and further fields are not modelled.
- Catalog strings are `Catalog` constants. The model proves that service names hold no `]` or
  line break and that commit types hold no colon or line break. It does not prove that
  the log templates, developer names and commit texts hold no line break. So
  Commits.ParseFormatCommit and the split-back clause of Handlers.GetLogs are stated under that
  condition rather than for every generated record.
- The commit blocks in the history text are joined, not parsed back. Counting the `commit `
  headers in that text is not modelled.
- The JSON field names and value types of the responses belong to the response models, which
  are not modelled. The responses are plain datatypes.
