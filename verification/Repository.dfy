/** The history store, updated in place; each method is one committed session. */
module Repository {
  import opened Prelude
  import opened RunModel
  import opened Scenarios
  import opened StoreModel

  class Repository {
    var runs: map<RunId, RunRow>
    var steps: map<Key, StepRow>
    var queue: map<Key, QueueRow>

    ghost function View(): StoreView
      reads this
    {
      StoreView(runs, steps, queue)
    }

    constructor ()
      ensures View() == EmptyStore
    {
      runs, steps, queue := map[], map[], map[];
    }

    method CreateRun(id: RunId, scenario: Scenario, maxAttempts: int)
      modifies this
      ensures View() == StoreModel.CreateRun(old(View()), id, scenario, maxAttempts)
    {
      runs := runs[id := RunRow(scenario.name, Active, None)];
      ghost var start := View();
      for i := 0 to |scenario.steps|
        invariant View() == AddRows(start, id, scenario.steps, i, maxAttempts)
      {
        var step := scenario.steps[i];
        steps := steps[(id, step.id) := NewStepRow(step.ttp)];
        queue := queue[(id, step.id) := NewQueueRow(step.ttp, maxAttempts)];
      }
    }

    method UpdateRunStatus(id: RunId, status: RunStatus, finished: bool, now: Time)
      modifies this
      ensures View() == StoreModel.UpdateRunStatus(old(View()), id, status, finished, now)
    {
      if id !in runs {
        return;
      }
      runs := runs[id := runs[id].(status := status)];
      if finished {
        runs := runs[id := runs[id].(finishedAt := Some(now))];
        MarkRunCleanupComplete(id);
      }
    }

    /** Closes the cleanup items of a finished run that are still pending. */
    method MarkRunCleanupComplete(id: RunId)
      modifies this`queue
      ensures queue == CloseRunCleanup(old(queue), id)
    {
      var todo := set k | k in queue && k.0 == id;
      while todo != {}
        invariant queue.Keys == old(queue).Keys && forall k :: k in todo ==> k in queue && k.0 == id
        invariant forall k :: k in queue ==>
                    queue[k] == if k.0 == id && k !in todo then CloseCleanup(old(queue)[k]) else old(queue)[k]
        decreases |todo|
      {
        var k :| k in todo;
        if queue[k].cleanup.Pending? {
          queue := queue[k := queue[k].(cleanup := Complete)];
        }
        todo := todo - {k};
      }
      assert queue == CloseRunCleanup(old(queue), id);
    }

    method UpdateStep(key: Key, c: Change, now: Time)
      modifies this
      ensures View() == StoreModel.UpdateStep(old(View()), key, c, now)
    {
      if key !in steps {
        return;
      }
      var row := WriteStepRow(steps[key], c, now);
      steps := steps[key := row];
      if key in queue {
        var q := WriteQueueRow(queue[key], c);
        queue := queue[key := q];
      }
    }

    method RetryFailedSteps(id: RunId) returns (changed: nat)
      modifies this
      ensures View() == RetryStored(old(View()), id)
      ensures changed == if id in old(runs) then |RetryableRows(old(View()), id)| else 0
    {
      if id !in runs {
        return 0;
      }
      changed := RetryStepRows(id, RetryableRows(View(), id));
      RetryQueueRows(id);
      if changed != 0 {
        runs := runs[id := runs[id].(status := Active, finishedAt := None)];
      }
    }

    /** `hit` is the set of rows to be requeued. */
    method RetryStepRows(id: RunId, ghost hit: set<Key>) returns (changed: nat)
      requires forall k :: k in hit <==> k in steps && k.0 == id && steps[k].status.Retryable()
      modifies this`steps
      ensures steps == map k | k in old(steps) :: if k.0 == id then RetryStepRow(old(steps)[k]) else old(steps)[k]
      ensures changed == |hit|
    {
      changed := 0;
      ghost var left := hit;
      var todo := set k | k in steps && k.0 == id;
      while todo != {}
        invariant steps.Keys == old(steps).Keys && forall k :: k in todo ==> k in steps && k.0 == id
        invariant forall k :: k in steps ==>
                    steps[k] == if k.0 == id && k !in todo then RetryStepRow(old(steps)[k]) else old(steps)[k]
        invariant left <= todo && forall k :: k in todo ==> (k in left <==> k in hit)
        invariant changed + |left| == |hit|
        decreases |todo|
      {
        var k :| k in todo;
        if steps[k].status.Retryable() {
          steps := steps[k := NewStepRow(steps[k].attackId)];
          changed := changed + 1;
          left := left - {k};
        }
        todo := todo - {k};
      }
    }

    method RetryQueueRows(id: RunId)
      modifies this`queue
      ensures queue == map k | k in old(queue) :: if k.0 == id then RetryQueueRow(old(queue)[k]) else old(queue)[k]
    {
      var todo := set k | k in queue && k.0 == id;
      while todo != {}
        invariant queue.Keys == old(queue).Keys && forall k :: k in todo ==> k in queue && k.0 == id
        invariant forall k :: k in queue ==>
                    queue[k] == if k.0 == id && k !in todo then RetryQueueRow(old(queue)[k]) else old(queue)[k]
        decreases |todo|
      {
        var k :| k in todo;
        if queue[k].status.Retryable() {
          queue := queue[k := queue[k].(status := Queued, agent := None, cleanup := Pending, lastError := None)];
        }
        todo := todo - {k};
      }
    }

    method MarkCleanupComplete(id: RunId) returns (changed: nat)
      modifies this`queue
      ensures View() == CompleteCleanup(old(View()), id)
      ensures changed == |OpenCleanups(old(queue), id)|
    {
      changed := CompleteRows(id, OpenCleanups(queue, id));
      assert queue == CompleteCleanup(old(View()), id).queue;
    }

    /** `hit` is the set of rows to be completed. */
    method CompleteRows(id: RunId, ghost hit: set<Key>) returns (changed: nat)
      requires forall k :: k in hit <==> k in queue && k.0 == id && !queue[k].cleanup.Complete?
      modifies this`queue
      ensures queue.Keys == old(queue).Keys
      ensures forall k :: k in queue ==>
                queue[k] == if k.0 == id then old(queue)[k].(cleanup := Complete) else old(queue)[k]
      ensures changed == |hit|
    {
      changed := 0;
      ghost var left := hit;
      var todo := set k | k in queue && k.0 == id;
      while todo != {}
        invariant queue.Keys == old(queue).Keys && forall k :: k in todo ==> k in queue && k.0 == id
        invariant forall k :: k in queue ==>
                    queue[k] == if k.0 == id && k !in todo then old(queue)[k].(cleanup := Complete) else old(queue)[k]
        invariant left <= todo && forall k :: k in todo ==> (k in left <==> k in hit)
        invariant changed + |left| == |hit|
        decreases |todo|
      {
        var k :| k in todo;
        if !queue[k].cleanup.Complete? {
          queue := queue[k := queue[k].(cleanup := Complete)];
          changed := changed + 1;
          left := left - {k};
        }
        todo := todo - {k};
      }
    }
  }

  function OpenCleanups(queue: map<Key, QueueRow>, id: RunId): set<Key> {
    set k | k in queue && k.0 == id && !queue[k].cleanup.Complete?
  }

  /** Writes the given fields of a step row. */
  method WriteStepRow(before: StepRow, c: Change, now: Time) returns (row: StepRow)
    ensures row == ChangeStepRow(before, c, now)
  {
    row := before.(status := c.status);
    if Given(c.agent) {
      row := row.(agent := c.agent);
    }
    if c.output.Some? {
      row := row.(output := Some(Clip(c.output.value, 4000)));
    }
    if c.error.Some? {
      row := row.(error := c.error);
    }
    if c.markStarted && row.startedAt.None? {
      row := row.(startedAt := Some(now));
    }
    if c.markFinished {
      row := row.(finishedAt := Some(now));
    }
  }

  /** Writes the given fields of a queue row. */
  method WriteQueueRow(before: QueueRow, c: Change) returns (q: QueueRow)
    ensures q == ChangeQueueRow(before, c)
  {
    q := before.(status := c.status);
    if Given(c.agent) {
      q := q.(agent := c.agent);
    }
    if c.markStarted {
      q := q.(attempt := q.attempt + 1);
    }
    if Given(c.error) {
      q := q.(lastError := c.error);
    }
    if c.status.Success? {
      q := q.(cleanup := NotRequired);
    } else if c.status.Failed? || c.status.Aborted? || c.status.Skipped? {
      q := q.(cleanup := Pending);
    }
  }
}
