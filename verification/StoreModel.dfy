/** The persistent history as a value: one row per run, and one step row and one queue row
    per step, keyed by run id and step id. */
module StoreModel {
  import opened Prelude
  import opened RunModel
  import opened Scenarios

  type Key = (RunId, StepId)

  datatype Cleanup = Pending | NotRequired | Complete

  datatype RunRow = RunRow(scenarioName: string, status: RunStatus, finishedAt: Option<Time>)

  datatype StepRow = StepRow(
    attackId: string,
    agent: Option<string>,
    status: StepStatus,
    startedAt: Option<Time>,
    finishedAt: Option<Time>,
    output: Option<string>,
    error: Option<string>)

  datatype QueueRow = QueueRow(
    attackId: string,
    status: StepStatus,
    agent: Option<string>,
    attempt: nat,
    maxAttempts: nat,
    cleanup: Cleanup,
    lastError: Option<string>)

  datatype StoreView = StoreView(runs: map<RunId, RunRow>, steps: map<Key, StepRow>, queue: map<Key, QueueRow>)

  const EmptyStore := StoreView(map[], map[], map[])

  /** The arguments of a step update. */
  datatype Change = Change(
    status: StepStatus,
    agent: Option<string>,
    output: Option<string>,
    error: Option<string>,
    markStarted: bool,
    markFinished: bool)

  predicate Given(s: Option<string>) {
    s.Some? && s.value != ""
  }

  function Clip(s: string, n: nat): string {
    if |s| <= n then s else s[..n]
  }

  function ChangeStepRow(row: StepRow, c: Change, now: Time): StepRow {
    row.(status := c.status,
         agent := if Given(c.agent) then c.agent else row.agent,
         output := if c.output.Some? then Some(Clip(c.output.value, 4000)) else row.output,
         error := if c.error.Some? then c.error else row.error,
         startedAt := if c.markStarted && row.startedAt.None? then Some(now) else row.startedAt,
         finishedAt := if c.markFinished then Some(now) else row.finishedAt)
  }

  function ChangeQueueRow(row: QueueRow, c: Change): QueueRow {
    row.(status := c.status,
         agent := if Given(c.agent) then c.agent else row.agent,
         attempt := if c.markStarted then row.attempt + 1 else row.attempt,
         lastError := if Given(c.error) then c.error else row.lastError,
         cleanup := if c.status.Success? then NotRequired
                    else if c.status.Failed? || c.status.Aborted? || c.status.Skipped? then Pending
                    else row.cleanup)
  }

  /** Updates the step row and, when there is one, the queue row. */
  function UpdateStep(s: StoreView, key: Key, c: Change, now: Time): StoreView {
    if key !in s.steps then s
    else
      s.(steps := s.steps[key := ChangeStepRow(s.steps[key], c, now)],
         queue := if key in s.queue then s.queue[key := ChangeQueueRow(s.queue[key], c)] else s.queue)
  }

  function CloseCleanup(row: QueueRow): QueueRow {
    if row.cleanup.Pending? then row.(cleanup := Complete) else row
  }

  function CloseRunCleanup(queue: map<Key, QueueRow>, id: RunId): map<Key, QueueRow> {
    map k | k in queue :: if k.0 == id then CloseCleanup(queue[k]) else queue[k]
  }

  function UpdateRunStatus(s: StoreView, id: RunId, status: RunStatus, finished: bool, now: Time): StoreView {
    if id !in s.runs then s
    else
      s.(runs := s.runs[id := s.runs[id].(
           status := status, finishedAt := if finished then Some(now) else s.runs[id].finishedAt)],
         queue := if finished then CloseRunCleanup(s.queue, id) else s.queue)
  }

  function NewStepRow(attackId: string): StepRow {
    StepRow(attackId, None, Queued, None, None, None, None)
  }

  function NewQueueRow(attackId: string, maxAttempts: int): QueueRow {
    QueueRow(attackId, Queued, None, 0, if maxAttempts < 1 then 1 else maxAttempts, Pending, None)
  }

  /** The rows of the first `n` steps of a new run. */
  function AddRows(s: StoreView, id: RunId, steps: seq<ScenarioStep>, n: nat, maxAttempts: int): StoreView
    requires n <= |steps|
  {
    if n == 0 then s
    else
      var t := AddRows(s, id, steps, n - 1, maxAttempts);
      var key := (id, steps[n - 1].id);
      t.(steps := t.steps[key := NewStepRow(steps[n - 1].ttp)],
         queue := t.queue[key := NewQueueRow(steps[n - 1].ttp, maxAttempts)])
  }

  function CreateRun(s: StoreView, id: RunId, scenario: Scenario, maxAttempts: int): StoreView {
    AddRows(s.(runs := s.runs[id := RunRow(scenario.name, Active, None)]), id, scenario.steps, |scenario.steps|, maxAttempts)
  }

  function RetryStepRow(row: StepRow): StepRow {
    if row.status.Retryable() then NewStepRow(row.attackId) else row
  }

  function RetryQueueRow(row: QueueRow): QueueRow {
    if row.status.Retryable() then row.(status := Queued, agent := None, cleanup := Pending, lastError := None) else row
  }

  function RetryableRows(s: StoreView, id: RunId): set<Key> {
    set k | k in s.steps && k.0 == id && s.steps[k].status.Retryable()
  }

  /** What the engine's status report counts as retryable; retrying itself does not ask for it. */
  predicate CountedRetryable(row: QueueRow) {
    row.status.Retryable() && row.attempt < row.maxAttempts
  }

  /** Requeues the retryable rows of a run, whatever their attempt counters say. */
  function RetryStored(s: StoreView, id: RunId): StoreView {
    if id !in s.runs then s
    else
      StoreView(
        if RetryableRows(s, id) == {} then s.runs else s.runs[id := s.runs[id].(status := Active, finishedAt := None)],
        map k | k in s.steps :: if k.0 == id then RetryStepRow(s.steps[k]) else s.steps[k],
        map k | k in s.queue :: if k.0 == id then RetryQueueRow(s.queue[k]) else s.queue[k])
  }

  function CompleteCleanup(s: StoreView, id: RunId): StoreView {
    s.(queue := map k | k in s.queue :: if k.0 == id then s.queue[k].(cleanup := Complete) else s.queue[k])
  }
}
