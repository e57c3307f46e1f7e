/** The three read endpoints (main.py:238-357). Each sets a time window ending at the current
    time, generates its records service by service, and renders them into one text blob. The
    current time is the parameter `now`, in microseconds; the clock's text renderings are the
    functions of a `Clock`; every random draw in record `k` comes from `draws(k)`. */
module Handlers {
  import opened Wrappers
  import opened Text
  import Catalog
  import opened Sorting
  import opened Collection
  import Logs
  import Metrics
  import Commits

  /** How the wall clock writes a timestamp: `strftime` to milliseconds for log lines, `strftime`
      to seconds for commit dates, and `isoformat` for window bounds. */
  datatype Clock = Clock(logStamp: int -> string, commitDate: int -> string, isoFormat: int -> string)

  const MICROS_PER_SECOND: int := 1000000

  /** `timedelta(hours=1)` (main.py:253) */
  const LOG_WINDOW: int := 3600 * MICROS_PER_SECOND

  /** `timedelta(days=30)` (main.py:306) */
  const COMMIT_WINDOW: int := 30 * 24 * 3600 * MICROS_PER_SECOND

  datatype TimeRange = TimeRange(start: string, end: string)

  /** What a client gets on a query outside the declared bounds. */
  datatype QueryError = OutOfRange(value: int, low: int, high: int)

  /** A query parameter after validation: the default when absent, rejected outside `[low, high]`
      (the `Query(default=..., ge=..., le=...)` declarations at main.py:239 and main.py:292). */
  function QueryValue(query: Option<int>, default: int, low: int, high: int): (r: Result<int, QueryError>)
    ensures var value := if query.Some? then query.value else default;
            (r.Success? <==> low <= value <= high) && (r.Success? ==> r.value == value)
  {
    var value := if query.Some? then query.value else default;
    if low <= value <= high then Success(value) else Failure(OutOfRange(value, low, high))
  }

  // ---------------------------------------------------------------------------------------------
  // GET /logs

  /** `{"timestamp": ..., "line": ...}` (main.py:267-270) */
  datatype LogRecord = LogRecord(timestamp: int, line: string)

  function LogTime(r: LogRecord): int {
    r.timestamp
  }

  /** One record's draws: its offset into the window (`uniform(0, 3600)` seconds, kept in
      microseconds) and what its line consumes. */
  datatype LogRecordDraw = LogRecordDraw(offset: int, line: Logs.LogDraw)

  predicate LogRecordDrawInRange(d: LogRecordDraw) {
    0 <= d.offset <= LOG_WINDOW
  }

  /** The loop body at main.py:264-270. */
  function LogRecordFor(startTime: int, clock: Clock, service: string, d: LogRecordDraw): LogRecord {
    LogRecord(startTime + d.offset, Logs.GenerateLogLine(service, startTime + d.offset, d.line, clock.logStamp))
  }

  function MakeLogRecord(startTime: int, clock: Clock): (string, LogRecordDraw) -> LogRecord {
    (service: string, d: LogRecordDraw) => LogRecordFor(startTime, clock, service, d)
  }

  /** The records the nested loop of `get_logs` builds, before sorting. */
  function GeneratedLogs(numLogs: nat, now: int, draws: nat -> LogRecordDraw, clock: Clock): seq<LogRecord> {
    Collected(numLogs, |Catalog.SERVICES|, draws, MakeLogRecord(now - LOG_WINDOW, clock))
  }

  /** Every generated record is stamped inside the hour before `now`. */
  lemma GeneratedLogsInWindow(numLogs: nat, now: int, draws: nat -> LogRecordDraw, clock: Clock)
    requires forall k: nat :: LogRecordDrawInRange(draws(k))
    ensures forall x :: x in GeneratedLogs(numLogs, now, draws, clock) ==>
              now - LOG_WINDOW <= x.timestamp <= now
  {
    CollectedAll(numLogs, draws, MakeLogRecord(now - LOG_WINDOW, clock),
                 (x: LogRecord) => now - LOG_WINDOW <= x.timestamp <= now);
  }

  /** Record `r` is the one made for the service that owns its position from draw `r`: stamped
      `offset` after the start of the window, with the line generated for that service at that
      time. The service name has no `]` and no line break, so by GenerateLogLine the line reads
      back into that stamp, the drawn level, that service and the drawn message. */
  lemma GeneratedLogRecord(numLogs: nat, now: int, draws: nat -> LogRecordDraw, clock: Clock, r: nat)
    requires r < numLogs
    ensures var logs, service := GeneratedLogs(numLogs, now, draws, clock), Catalog.SERVICES[Owner(numLogs, r)];
            |logs| == numLogs && logs[r] == LogRecordFor(now - LOG_WINDOW, clock, service, draws(r)) &&
            ']' !in service && '\n' !in service
  {
    var make, idx := MakeLogRecord(now - LOG_WINDOW, clock), Owner(numLogs, r);
    CollectedRecord(numLogs, r, draws, make);
    Catalog.ServiceNamesArePlain(idx);
  }

  function Lines(logs: seq<LogRecord>): (lines: seq<string>)
    ensures |lines| == |logs|
    ensures forall i :: 0 <= i < |logs| ==> lines[i] == logs[i].line
  {
    seq(|logs|, i requires 0 <= i < |logs| => logs[i].line)
  }

  datatype LogsResponse = LogsResponse(
    clusterName: string,
    totalServices: nat,
    services: seq<string>,
    logCount: nat,
    timeRange: TimeRange,
    logs: string)

  /** `get_logs(num_logs)` (main.py:238-288) once the query has been validated. Besides the
      response, gives the sorted list whose lines the response joins. */
  method GetLogs(numLogs: int, now: int, draws: nat -> LogRecordDraw, clock: Clock)
    returns (response: LogsResponse, sortedLogs: seq<LogRecord>)
    requires 1 <= numLogs <= 10000
    requires forall k: nat :: LogRecordDrawInRange(draws(k))
    ensures |sortedLogs| == numLogs && response.logCount == numLogs
    ensures multiset(sortedLogs) == multiset(GeneratedLogs(numLogs, now, draws, clock))
    ensures SortedBy(sortedLogs, LogTime, false)
    ensures forall i :: 0 <= i < |sortedLogs| ==> now - LOG_WINDOW <= sortedLogs[i].timestamp <= now
    ensures response.clusterName == Catalog.CLUSTER_NAME
    ensures response.totalServices == |Catalog.SERVICES| && response.services == Catalog.SERVICES
    ensures response.timeRange == TimeRange(clock.isoFormat(now - LOG_WINDOW), clock.isoFormat(now))
    ensures response.logs == Join(Lines(sortedLogs), '\n')
    ensures (forall i :: 0 <= i < numLogs ==> '\n' !in sortedLogs[i].line) ==>
              Split(response.logs, '\n') == Lines(sortedLogs)
  {
    var endTime := now;
    var startTime := endTime - LOG_WINDOW;
    var make := MakeLogRecord(startTime, clock);
    var logs := CollectAcrossServices(numLogs, draws, make);

    sortedLogs := SortList(logs, LogTime, false);

    GeneratedLogsInWindow(numLogs, now, draws, clock);
    forall i | 0 <= i < |sortedLogs|
      ensures startTime <= sortedLogs[i].timestamp <= endTime
    {
      assert sortedLogs[i] in multiset(logs);
    }
    var logLines := Lines(sortedLogs);
    if forall i :: 0 <= i < numLogs ==> '\n' !in sortedLogs[i].line {
      SplitJoin(logLines, '\n');
    }
    response := LogsResponse(
      Catalog.CLUSTER_NAME, |Catalog.SERVICES|, Catalog.SERVICES, |logLines|,
      TimeRange(clock.isoFormat(startTime), clock.isoFormat(endTime)),
      Join(logLines, '\n'));
  }

  /** `GET /logs`: validates `num_logs` (default 100, between 1 and 10000), then generates. */
  method ServeLogs(numLogs: Option<int>, now: int, draws: nat -> LogRecordDraw, clock: Clock)
    returns (r: Result<LogsResponse, QueryError>)
    requires forall k: nat :: LogRecordDrawInRange(draws(k))
    ensures var n := if numLogs.Some? then numLogs.value else 100;
            (r.Failure? <==> !(1 <= n <= 10000)) && (r.Success? ==> r.value.logCount == n)
  {
    match QueryValue(numLogs, 100, 1, 10000)
    case Failure(e) =>
      r := Failure(e);
    case Success(n) =>
      var response, _ := GetLogs(n, now, draws, clock);
      r := Success(response);
  }

  // ---------------------------------------------------------------------------------------------
  // GET /commit_history

  /** `{"timestamp": ..., "commit": ...}` (main.py:320-323) */
  datatype CommitEntry = CommitEntry(timestamp: int, commit: Commits.Commit)

  function CommitTime(e: CommitEntry): int {
    e.timestamp
  }

  /** One commit's draws: its offset into the 30-day window, in microseconds, and what the commit
      itself consumes. */
  datatype CommitEntryDraw = CommitEntryDraw(offset: int, commit: Commits.CommitDraw)

  predicate CommitEntryDrawInRange(d: CommitEntryDraw) {
    0 <= d.offset <= COMMIT_WINDOW
  }

  /** The loop body at main.py:317-323. */
  function CommitEntryFor(startTime: int, clock: Clock, service: string, d: CommitEntryDraw): CommitEntry {
    CommitEntry(startTime + d.offset, Commits.GenerateCommit(service, startTime + d.offset, d.commit, clock.commitDate))
  }

  function MakeCommitEntry(startTime: int, clock: Clock): (string, CommitEntryDraw) -> CommitEntry {
    (service: string, d: CommitEntryDraw) => CommitEntryFor(startTime, clock, service, d)
  }

  /** The entries the nested loop of `get_commit_history` builds, before sorting. */
  function GeneratedCommits(numCommits: nat, now: int, draws: nat -> CommitEntryDraw, clock: Clock): seq<CommitEntry> {
    Collected(numCommits, |Catalog.SERVICES|, draws, MakeCommitEntry(now - COMMIT_WINDOW, clock))
  }

  /** Every generated commit is stamped inside the 30 days before `now`. */
  lemma GeneratedCommitsInWindow(numCommits: nat, now: int, draws: nat -> CommitEntryDraw, clock: Clock)
    requires forall k: nat :: CommitEntryDrawInRange(draws(k))
    ensures forall x :: x in GeneratedCommits(numCommits, now, draws, clock) ==>
              now - COMMIT_WINDOW <= x.timestamp <= now
  {
    CollectedAll(numCommits, draws, MakeCommitEntry(now - COMMIT_WINDOW, clock),
                 (x: CommitEntry) => now - COMMIT_WINDOW <= x.timestamp <= now);
  }

  /** Entry `r` is the one made for the service that owns its position from draw `r`: stamped
      `offset` after the start of the window, with the commit generated for that service at that
      time (and so naming that service). */
  lemma GeneratedCommitRecord(numCommits: nat, now: int, draws: nat -> CommitEntryDraw, clock: Clock, r: nat)
    requires r < numCommits
    ensures var commits, service := GeneratedCommits(numCommits, now, draws, clock), Catalog.SERVICES[Owner(numCommits, r)];
            |commits| == numCommits && commits[r] == CommitEntryFor(now - COMMIT_WINDOW, clock, service, draws(r))
  {
    CollectedRecord(numCommits, r, draws, MakeCommitEntry(now - COMMIT_WINDOW, clock));
  }

  function Blocks(entries: seq<CommitEntry>): (blocks: seq<string>)
    ensures |blocks| == |entries|
    ensures forall i :: 0 <= i < |entries| ==> blocks[i] == Commits.FormatCommit(entries[i].commit)
  {
    seq(|entries|, i requires 0 <= i < |entries| => Commits.FormatCommit(entries[i].commit))
  }

  /** `CommitHistoryResponse` (main.py:119-124) */
  datatype CommitHistoryResponse = CommitHistoryResponse(
    clusterName: string,
    totalCommits: nat,
    services: seq<string>,
    timeRange: TimeRange,
    commits: string)

  /** `get_commit_history(num_commits)` (main.py:291-340) once the query has been validated.
      Besides the response, gives the sorted list whose blocks the response joins. */
  method GetCommitHistory(numCommits: int, now: int, draws: nat -> CommitEntryDraw, clock: Clock)
    returns (response: CommitHistoryResponse, sortedCommits: seq<CommitEntry>)
    requires 1 <= numCommits <= 1000
    requires forall k: nat :: CommitEntryDrawInRange(draws(k))
    ensures |sortedCommits| == numCommits && response.totalCommits == numCommits
    ensures multiset(sortedCommits) == multiset(GeneratedCommits(numCommits, now, draws, clock))
    ensures SortedBy(sortedCommits, CommitTime, true)
    ensures forall i :: 0 <= i < |sortedCommits| ==> now - COMMIT_WINDOW <= sortedCommits[i].timestamp <= now
    ensures response.clusterName == Catalog.CLUSTER_NAME && response.services == Catalog.SERVICES
    ensures response.timeRange == TimeRange(clock.isoFormat(now - COMMIT_WINDOW), clock.isoFormat(now))
    ensures response.commits == Join(Blocks(sortedCommits), '\n')
  {
    var endTime := now;
    var startTime := endTime - COMMIT_WINDOW;
    var make := MakeCommitEntry(startTime, clock);
    var commits := CollectAcrossServices(numCommits, draws, make);

    sortedCommits := SortList(commits, CommitTime, true);

    GeneratedCommitsInWindow(numCommits, now, draws, clock);
    forall i | 0 <= i < |sortedCommits|
      ensures startTime <= sortedCommits[i].timestamp <= endTime
    {
      assert sortedCommits[i] in multiset(commits);
    }
    var commitBlocks := Blocks(sortedCommits);
    response := CommitHistoryResponse(
      Catalog.CLUSTER_NAME, |sortedCommits|, Catalog.SERVICES,
      TimeRange(clock.isoFormat(startTime), clock.isoFormat(endTime)),
      Join(commitBlocks, '\n'));
  }

  /** `GET /commit_history`: validates `num_commits` (default 50, between 1 and 1000), then
      generates. */
  method ServeCommitHistory(numCommits: Option<int>, now: int, draws: nat -> CommitEntryDraw, clock: Clock)
    returns (r: Result<CommitHistoryResponse, QueryError>)
    requires forall k: nat :: CommitEntryDrawInRange(draws(k))
    ensures var n := if numCommits.Some? then numCommits.value else 50;
            (r.Failure? <==> !(1 <= n <= 1000)) && (r.Success? ==> r.value.totalCommits == n)
  {
    match QueryValue(numCommits, 50, 1, 1000)
    case Failure(e) =>
      r := Failure(e);
    case Success(n) =>
      var response, _ := GetCommitHistory(n, now, draws, clock);
      r := Success(response);
  }

  // ---------------------------------------------------------------------------------------------
  // GET /metrics

  /** `MetricsResponse` (main.py:102-105) */
  datatype MetricsResponse = MetricsResponse(
    timestamp: string,
    clusterName: string,
    services: seq<Metrics.ServiceMetrics>)

  /** `get_metrics()` (main.py:343-357): one record per service, in catalog order. */
  function GetMetrics(now: int, draws: nat -> Metrics.MetricsDraw, clock: Clock): (response: MetricsResponse)
    ensures response.timestamp == clock.isoFormat(now) && response.clusterName == Catalog.CLUSTER_NAME
    ensures |response.services| == |Catalog.SERVICES|
    ensures forall i :: 0 <= i < |response.services| ==> response.services[i].serviceName == Catalog.SERVICES[i]
    ensures (forall k: nat :: Metrics.MetricsDrawInRange(draws(k))) ==>
              forall i :: 0 <= i < |response.services| ==> Metrics.WellFormed(response.services[i])
  {
    MetricsResponse(clock.isoFormat(now), Catalog.CLUSTER_NAME, Metrics.ServiceMetricsList(draws))
  }
}
