// The rows in Postgres, and the outcome of one attempt.
module Records {
  import opened Wrappers

  // Identifiers are only ever compared for equality, except that the text of a run's
  // UUID becomes part of a Redis key.
  type TaskId = nat
  type WorkerId = nat
  type Uuid = s: string | |s| == 36 witness seq(36, _ => '0')
  type RunId = Uuid
  type Time = real
  type Variables = map<string, string>

  datatype TaskStatus = Pending | Queued | Running | Completed | Failed | Retrying

  datatype RunStatus = RunPending | RunRunning | RunCompleted | RunFailed | RunCancelled

  datatype LogLevel = Debug | Info | Warning | Error

  datatype TaskRow = TaskRow(
    runId: RunId,
    requestId: nat,
    dataRow: Option<nat>,
    dataContext: Variables,
    status: TaskStatus,
    retryCount: nat,
    maxRetries: int,
    nextRetryAt: Option<Time>,
    assignedWorker: Option<WorkerId>)

  datatype RunRow = RunRow(
    status: RunStatus,
    totalTasks: nat,
    completedTasks: nat,
    failedTasks: nat,
    environment: Variables)

  datatype ExecutionResult = ExecutionResult(
    statusCode: Option<int>,
    latencyMs: nat,
    headers: Option<map<string, string>>,
    body: Option<string>,
    errorMessage: Option<string>)

  datatype TaskOutcome = TaskOutcome(
    taskId: TaskId,
    runId: RunId,
    attempt: nat,
    newStatus: TaskStatus,
    response: ExecutionResult,
    assertionsPassed: Option<bool>,
    errorMessage: Option<string>,
    workerId: WorkerId,
    retryCount: nat,
    nextRetryAt: Option<Time>)

  datatype RequestResult = RequestResult(
    taskId: TaskId,
    attempt: nat,
    statusCode: Option<int>,
    latencyMs: nat,
    headers: Option<map<string, string>>,
    bodySnippet: Option<string>,
    assertionsPassed: Option<bool>,
    errorMessage: Option<string>,
    workerId: WorkerId)

  // The three f-strings of a log line, with their holes.
  datatype LogMessage =
    | TaskCompleted(attempt: nat, statusCode: Option<int>)
    | RetryPlanned(attempt: nat, error: Option<string>)
    | FailedPermanently(attempts: nat, error: Option<string>)

  datatype ExecutionLog = ExecutionLog(runId: RunId, taskId: TaskId, level: LogLevel, message: LogMessage)

  // The four tables that a batch write touches.
  datatype Tables = Tables(
    tasks: map<TaskId, TaskRow>,
    runs: map<RunId, RunRow>,
    results: seq<RequestResult>,
    logs: seq<ExecutionLog>)

  const EMPTY_TABLES := Tables(map[], map[], [], [])

  predicate IsTerminal(status: TaskStatus) {
    status == Completed || status == Failed
  }

  function Decimal(n: nat): (s: string)
    ensures |s| > 0
    ensures forall i :: 0 <= i < |s| ==> '0' <= s[i] <= '9'
  {
    if n < 10 then [DIGITS[n]] else Decimal(n / 10) + [DIGITS[n % 10]]
  }

  const DIGITS := "0123456789"

  // What a row of digits is worth.
  function Value(s: string): int {
    if s == "" then 0 else 10 * Value(s[..|s| - 1]) + (s[|s| - 1] as int - '0' as int)
  }

  lemma DigitsAreDigits(d: nat)
    requires d < 10
    ensures DIGITS[d] as int - '0' as int == d
  {
  }

  // A number is written with the digits that are worth it, and has no leading zero.
  lemma {:induction false} DecimalIsRead(n: nat)
    ensures Value(Decimal(n)) == n
    ensures n > 0 ==> Decimal(n)[0] != '0'
  {
    if n < 10 {
      DigitsAreDigits(n);
      assert Decimal(n)[..0] == "";
    } else {
      DigitsAreDigits(n % 10);
      DecimalIsRead(n / 10);
      assert Decimal(n)[..|Decimal(n)| - 1] == Decimal(n / 10);
    }
  }

  // Different numbers are written differently.
  lemma DecimalInjective(m: nat, n: nat)
    requires Decimal(m) == Decimal(n)
    ensures m == n
  {
    DecimalIsRead(m);
    DecimalIsRead(n);
  }
}
