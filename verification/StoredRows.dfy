/** What the stored rows hold after each API call, field by field, and what the kill switch guarantees. */
module StoredRows {
  import opened Prelude
  import opened Graphs
  import opened Scenarios
  import opened RunModel
  import opened RunProperties
  import opened PlannerModel
  import opened WorldModel
  import opened Simulation
  import S = StoreModel

  // ---- Run rows ----

  /** A known agent reports a result for the run. */
  predicate Answers(w: World, c: Call, id: RunId) {
    c.Result? && c.agent in w.agents && c.run == id
  }

  /** Some stored step of the run failed, was skipped or was aborted. */
  ghost predicate HasRetryableRow(s: S.StoreView, id: RunId) {
    exists key :: key in s.steps && key.0 == id
      && (s.steps[key].status.Failed? || s.steps[key].status.Skipped? || s.steps[key].status.Aborted?)
  }

  /** The row of a stored run after a call, from the row before it and the planner. */
  ghost function RowAfter(w: World, c: Call, id: RunId): S.RunRow
    requires id in w.store.runs && id in w.planner.runs && id in Do(w, c).planner.runs
  {
    var row, status := w.store.runs[id], Do(w, c).planner.runs[id].status;
    if Answers(w, c, id) && !status.Active? then S.RunRow(row.scenarioName, status, Some(c.now))
    else if c.Engage? && status.RunAborted? then S.RunRow(row.scenarioName, RunAborted, Some(c.now))
    else if c == RetryRun(id) && HasRetryableRow(w.store, id) then S.RunRow(row.scenarioName, Active, None)
    else row
  }

  lemma {:induction false} MirrorStepsKeepRow(s: S.StoreView, r: RunView, ids: seq<StepId>, n: nat, now: Time)
    requires n <= |ids|
    ensures MirrorSteps(s, r, ids, n, now).runs == s.runs
  {
    MirrorStepsKeepRuns(s, r, ids, n, now);
  }

  lemma MirrorRunRow(s: S.StoreView, r: RunView, now: Time, id: RunId)
    requires id in s.runs
    ensures id in MirrorRun(s, r, now).runs
    ensures MirrorRun(s, r, now).runs[id] ==
            if r.id == id && r.status.RunAborted? then S.RunRow(s.runs[id].scenarioName, RunAborted, Some(now)) else s.runs[id]
  {
    if r.status.RunAborted? {
      var u := S.UpdateRunStatus(s, r.id, RunAborted, true, now);
      MirrorStepsKeepRow(u, r, StepIds(r.scenario.steps), |r.scenario.steps|, now);
    }
  }

  lemma {:induction false} MirrorRunsRow(s: S.StoreView, p: PlannerView, n: nat, now: Time, id: RunId)
    requires n <= |p.order| && id in s.runs && id in p.runs && OwnIds(p)
    ensures id in MirrorRuns(s, p, n, now).runs
    ensures MirrorRuns(s, p, n, now).runs[id] ==
            if (exists i :: 0 <= i < n && p.order[i] == id) && p.runs[id].status.RunAborted?
            then S.RunRow(s.runs[id].scenarioName, RunAborted, Some(now)) else s.runs[id]
  {
    if n > 0 {
      MirrorRunsRow(s, p, n - 1, now, id);
      var t, last := MirrorRuns(s, p, n - 1, now), p.order[n - 1];
      if last in p.runs {
        MirrorRunRow(t, p.runs[last], now, id);
      }
    }
  }

  lemma EngagedRow(w: World, reason: string, now: Time, id: RunId)
    requires id in w.store.runs && id in w.planner.runs && id in w.planner.order && OwnIds(w.planner)
    ensures var c := Engage(reason, now);
            id in Do(w, c).planner.runs && id in Do(w, c).store.runs && Do(w, c).store.runs[id] == RowAfter(w, c, id)
  {
    var p := AbortIn(w.planner, "killswitch:" + reason, now);
    assert OwnIds(p);
    MirrorRunsRow(w.store, p, |p.order|, now, id);
  }

  lemma RetriedRow(w: World, id: RunId, c: Call)
    requires c.RetryRun? && id in w.store.runs && id in w.planner.runs
    ensures id in Do(w, c).planner.runs && id in Do(w, c).store.runs && Do(w, c).store.runs[id] == RowAfter(w, c, id)
  {
    if c.id == id {
      if HasRetryableRow(w.store, id) {
        var key :| key in w.store.steps && key.0 == id && w.store.steps[key].status.Retryable();
        assert key in S.RetryableRows(w.store, id);
      } else {
        forall key ensures key !in S.RetryableRows(w.store, id) {}
      }
    }
  }

  lemma AnsweredRow(w: World, c: Call, id: RunId)
    requires c.Result? && id in w.store.runs && id in w.planner.runs
    ensures id in Do(w, c).planner.runs && id in Do(w, c).store.runs && Do(w, c).store.runs[id] == RowAfter(w, c, id)
  {
  }

  lemma {:induction false} AddedRowsKeep(s: S.StoreView, id: RunId, steps: seq<ScenarioStep>, n: nat)
    requires n <= |steps|
    ensures S.AddRows(s, id, steps, n, 1).runs == s.runs
  {
    AddRowsKeepRuns(s, id, steps, n, 1);
  }

  lemma LaunchedRow(w: World, c: Call, id: RunId)
    requires c.Launch? && UniqueIds(c.scenario.steps) && ValidDag(c.scenario.steps)
    ensures Do(w, c).store.runs == w.store.runs[c.id := S.RunRow(c.scenario.name, Active, None)]
  {
    AddedRowsKeep(w.store.(runs := w.store.runs[c.id := S.RunRow(c.scenario.name, Active, None)]), c.id, c.scenario.steps,
                  |c.scenario.steps|);
  }

  /** Over every history, what any call makes of the row of a stored run: a result for the run stores the planner's
      new status as soon as the run is not active, an engagement stores every aborted run as aborted, a retry
      that requeues something reactivates the row, and everything else leaves it alone. */
  lemma RunRowFollows(h: seq<Call>, c: Call, id: RunId)
    requires PlausibleCalls(h + [c]) && id in Reached(h).store.runs
    ensures id in Reached(h).planner.runs && id in Do(Reached(h), c).planner.runs && id in Do(Reached(h), c).store.runs
    ensures Do(Reached(h), c).store.runs[id] == RowAfter(Reached(h), c, id)
  {
    assert (h + [c])[..|h + [c]| - 1] == h;
    HistoryKeepsSimulation(h);
    CallRow(Reached(h), c, id);
  }

  lemma CallRow(w: World, c: Call, id: RunId)
    requires SameRuns(w.planner, w.store) && Elements(w.planner.order) == w.planner.runs.Keys
    requires PlausibleCall(w, c) && id in w.store.runs
    ensures id in w.planner.runs && id in Do(w, c).planner.runs && id in Do(w, c).store.runs
    ensures Do(w, c).store.runs[id] == RowAfter(w, c, id)
  {
    assert id in Elements(w.planner.order);
    match c
    case Engage(reason, now) => EngagedRow(w, reason, now, id);
    case RetryRun(_) => RetriedRow(w, id, c);
    case Result(_, _, _, _, _, _, _) => AnsweredRow(w, c, id);
    case Launch(_, _, _) => LaunchKeepsRow(w, c, id);
    case _ => QuietRow(w, c, id);
  }

  lemma LaunchKeepsRow(w: World, c: Call, id: RunId)
    requires SameRuns(w.planner, w.store) && PlausibleCall(w, c) && c.Launch? && id in w.store.runs
    ensures id in w.planner.runs && id in Do(w, c).planner.runs && id in Do(w, c).store.runs
    ensures Do(w, c).store.runs[id] == RowAfter(w, c, id)
  {
    LaunchKeepsRuns(w, c, id);
    LaunchStoresOthers(w, c, id);
  }

  lemma LaunchKeepsRuns(w: World, c: Call, id: RunId)
    requires c.Launch? && id in w.planner.runs && id in w.store.runs
    ensures id in Do(w, c).planner.runs && RowAfter(w, c, id) == w.store.runs[id]
  {
  }

  lemma LaunchStoresOthers(w: World, c: Call, id: RunId)
    requires c.Launch? && id in w.store.runs && id != c.id
    ensures id in Do(w, c).store.runs && Do(w, c).store.runs[id] == w.store.runs[id]
  {
    if UniqueIds(c.scenario.steps) && ValidDag(c.scenario.steps) { LaunchedRow(w, c, id); }
  }

  lemma QuietRow(w: World, c: Call, id: RunId)
    requires !c.Engage? && !c.RetryRun? && !c.Result? && !c.Launch? && id in w.store.runs && id in w.planner.runs
    ensures Do(w, c).store.runs == w.store.runs && Do(w, c).planner.runs.Keys == w.planner.runs.Keys
    ensures RowAfter(w, c, id) == w.store.runs[id]
  {
  }

  /** A run row appears exactly when a valid scenario is launched, with the scenario's name and active. */
  lemma RunRowAppears(h: seq<Call>, c: Call, id: RunId)
    requires PlausibleCalls(h + [c]) && id !in Reached(h).store.runs
    ensures id in Do(Reached(h), c).store.runs <==>
            c.Launch? && c.id == id && UniqueIds(c.scenario.steps) && ValidDag(c.scenario.steps)
    ensures id in Do(Reached(h), c).store.runs ==>
            Do(Reached(h), c).store.runs[id] == S.RunRow(c.scenario.name, Active, None)
  {
    assert (h + [c])[..|h + [c]| - 1] == h;
    HistoryKeepsSimulation(h);
    CallRowAppears(Reached(h), c, id);
  }

  lemma CallRowAppears(w: World, c: Call, id: RunId)
    requires SameRuns(w.planner, w.store) && PlausibleCall(w, c) && id !in w.store.runs
    ensures id in Do(w, c).store.runs <==>
            c.Launch? && c.id == id && UniqueIds(c.scenario.steps) && ValidDag(c.scenario.steps)
    ensures id in Do(w, c).store.runs ==> Do(w, c).store.runs[id] == S.RunRow(c.scenario.name, Active, None)
  {
    DoParts(w, c);
    CallKeepsRuns(w, c);
    PlannerKeepsIds(w, c);
    if c.Launch? && UniqueIds(c.scenario.steps) && ValidDag(c.scenario.steps) { LaunchedRow(w, c, id); }
  }

  // ---- Step and queue rows ----

  /** A hand-out stores the agent and the first start, counts the attempt, and keeps everything else. */
  lemma HandedOutRows(h: seq<Call>, c: Call, key: S.Key)
    requires PlausibleCalls(h) && CallHandsOut(Reached(h), c, key) && c.agent != ""
    ensures var s, t := Reached(h).store, Do(Reached(h), c).store;
            && key in s.steps && key in t.steps && key in s.queue && key in t.queue
            && t.steps[key] == S.StepRow(s.steps[key].attackId, Some(c.agent), Dispatched,
                 if s.steps[key].startedAt.Some? then s.steps[key].startedAt else Some(c.now),
                 s.steps[key].finishedAt, s.steps[key].output, s.steps[key].error)
            && t.queue[key] == S.QueueRow(s.queue[key].attackId, Dispatched, Some(c.agent), s.queue[key].attempt + 1,
                 s.queue[key].maxAttempts, s.queue[key].cleanup, s.queue[key].lastError)
  {
    ReachedStep(h, key);
    assert HasStep(Reached(h).planner, key);
  }

  predicate Told(error: Option<string>) {
    error.Some? && error.value != ""
  }

  /** A result stores its outcome, its output up to 4000 characters, its error if there is one, and the end. The
      item of a successful step needs no cleanup; the item of a failed one awaits it, unless the run has
      ended, which closes the cleanup. */
  lemma ReportedRows(h: seq<Call>, c: Call)
    requires PlausibleCalls(h) && c.Result? && c.agent in Reached(h).agents && HasStep(Reached(h).planner, (c.run, c.step))
    ensures var key, s, t := (c.run, c.step), Reached(h).store, Do(Reached(h), c).store;
            var ended := !Do(Reached(h), c).planner.runs[c.run].status.Active?;
            && key in s.steps && key in t.steps && key in s.queue && key in t.queue
            && t.steps[key] == S.StepRow(s.steps[key].attackId, s.steps[key].agent, if c.ok then Success else Failed,
                 s.steps[key].startedAt, Some(c.now),
                 Some(if |c.output| <= 4000 then c.output else c.output[..4000]),
                 if c.error.Some? then c.error else s.steps[key].error)
            && t.queue[key] == S.QueueRow(s.queue[key].attackId, if c.ok then Success else Failed, s.queue[key].agent,
                 s.queue[key].attempt, s.queue[key].maxAttempts,
                 if c.ok then S.NotRequired else if ended then S.Complete else S.Pending,
                 if Told(c.error) then c.error else s.queue[key].lastError)
  {
    ReachedStep(h, (c.run, c.step));
  }

  /** The row of a stopped step: aborted, ended now, with the planner's reason. */
  predicate StoppedRow(row: S.StepRow, error: Option<string>, now: Time) {
    row.status.Aborted? && row.finishedAt == Some(now) && (error.Some? ==> row.error == error)
  }

  lemma {:induction false} MirrorStepsStop(s: S.StoreView, r: RunView, ids: seq<StepId>, n: nat, now: Time, key: S.Key)
    requires n <= |ids| && key in s.steps && key.1 in r.steps && r.steps[key.1].status.Aborted?
    ensures var t := MirrorSteps(s, r, ids, n, now);
            && key in t.steps
            && (if key.0 == r.id && exists j :: 0 <= j < n && ids[j] == key.1
                then StoppedRow(t.steps[key], r.steps[key.1].error, now) else t.steps[key] == s.steps[key])
  {
    if n > 0 {
      MirrorStepsStop(s, r, ids, n - 1, now, key);
    }
  }

  lemma {:induction false} MirrorStepsElsewhere(s: S.StoreView, r: RunView, ids: seq<StepId>, n: nat, now: Time, key: S.Key)
    requires n <= |ids| && key in s.steps && key.0 != r.id
    ensures var t := MirrorSteps(s, r, ids, n, now); key in t.steps && t.steps[key] == s.steps[key]
  {
    if n > 0 {
      MirrorStepsElsewhere(s, r, ids, n - 1, now, key);
    }
  }

  lemma MirrorRunStop(s: S.StoreView, r: RunView, now: Time, key: S.Key, mine: RunView)
    requires key in s.steps && (r.id == key.0 ==> r == mine)
    requires mine.id == key.0 && mine.status.RunAborted? && key.1 in mine.steps && mine.steps[key.1].status.Aborted?
    requires key.1 in StepIds(mine.scenario.steps)
    ensures var t := MirrorRun(s, r, now);
            && key in t.steps
            && (if r.id == key.0 then StoppedRow(t.steps[key], mine.steps[key.1].error, now) else t.steps[key] == s.steps[key])
  {
    if r.status.RunAborted? {
      var u := S.UpdateRunStatus(s, r.id, RunAborted, true, now);
      if r.id == key.0 {
        MirrorStepsStop(u, r, StepIds(r.scenario.steps), |r.scenario.steps|, now, key);
      } else {
        MirrorStepsElsewhere(u, r, StepIds(r.scenario.steps), |r.scenario.steps|, now, key);
      }
    }
  }

  lemma {:induction false} MirrorRunsStop(s: S.StoreView, p: PlannerView, n: nat, now: Time, key: S.Key)
    requires n <= |p.order| && key in s.steps && OwnIds(p) && AbortedInAborted(p, key)
    requires key.1 in StepIds(p.runs[key.0].scenario.steps)
    ensures var t := MirrorRuns(s, p, n, now);
            && key in t.steps
            && (if exists i :: 0 <= i < n && p.order[i] == key.0
                then StoppedRow(t.steps[key], p.runs[key.0].steps[key.1].error, now) else t.steps[key] == s.steps[key])
  {
    if n > 0 {
      MirrorRunsStop(s, p, n - 1, now, key);
      var t, last := MirrorRuns(s, p, n - 1, now), p.order[n - 1];
      if last in p.runs {
        MirrorRunStop(t, p.runs[last], now, key, p.runs[key.0]);
      }
    }
  }

  /** After an engagement every aborted step of every aborted run is stored with the planner's reason and the time
      of the engagement. */
  lemma EngagedRows(h: seq<Call>, reason: string, now: Time, key: S.Key)
    requires PlausibleCalls(h) && now > 0.0
    requires AbortedInAborted(Do(Reached(h), Engage(reason, now)).planner, key)
    ensures var w := Do(Reached(h), Engage(reason, now));
            key in w.store.steps && StoppedRow(w.store.steps[key], w.planner.runs[key.0].steps[key.1].error, now)
  {
    var w := Reached(h);
    var p := AbortIn(w.planner, "killswitch:" + reason, now);
    ReachedStep(h, key);
    assert OwnIds(p) && HasStep(w.planner, key);
    MirrorRunsStop(w.store, p, |p.order|, now, key);
  }

  /** A retry makes the retryable rows of its run as new, apart from the attempts made. */
  lemma RetriedRows(h: seq<Call>, id: RunId, k: StepId)
    requires PlausibleCalls(h) && HasStep(Reached(h).planner, (id, k))
    ensures var key, s, t := (id, k), Reached(h).store, Do(Reached(h), RetryRun(id)).store;
            && key in s.steps && key in t.steps && key in s.queue && key in t.queue
            && (if s.steps[key].status.Failed? || s.steps[key].status.Aborted?
                then t.steps[key] == S.StepRow(s.steps[key].attackId, None, Queued, None, None, None, None)
                     && t.queue[key] == S.QueueRow(s.queue[key].attackId, Queued, None, s.queue[key].attempt,
                          s.queue[key].maxAttempts, S.Pending, None)
                else t.steps[key] == s.steps[key] && t.queue[key] == s.queue[key])
  {
    ReachedStep(h, (id, k));
  }

  /** A cleanup completes every item of its run and touches nothing else. */
  lemma CleanedRows(w: World, id: RunId, key: S.Key)
    requires key in w.store.queue
    ensures var t := Do(w, CleanupRun(id)).store;
            && t.runs == w.store.runs && t.steps == w.store.steps && key in t.queue
            && t.queue[key] == if key.0 == id then w.store.queue[key].(cleanup := S.Complete) else w.store.queue[key]
  {
  }

  // ---- The kill switch ----

  /** Once engaged, the switch stays on until it is disengaged. */
  lemma {:induction false} StaysEngaged(h: seq<Call>, more: seq<Call>)
    requires Reached(h).flag.Some? && Disengage !in more
    ensures Reached(h + more).flag.Some?
  {
    if more == [] {
      assert h + more == h;
    } else {
      assert (h + more)[..|h + more| - 1] == h + more[..|more| - 1];
      StaysEngaged(h, more[..|more| - 1]);
    }
  }

  /** From an engagement on, no agent is handed any step of any run until the switch is disengaged, whatever is
      launched, resumed, retried or reported in between. */
  lemma {:induction false} EngagedHandsOutNothing(h: seq<Call>, reason: string, now: Time, more: seq<Call>, key: S.Key)
    requires Disengage !in more
    ensures CallHandouts(h + [Engage(reason, now)] + more, key) == CallHandouts(h, key)
    ensures Reached(h + [Engage(reason, now)] + more).flag.Some?
  {
    var h1 := h + [Engage(reason, now)];
    assert h1[..|h1| - 1] == h;
    if more == [] {
      assert h1 + more == h1;
    } else {
      var front := more[..|more| - 1];
      assert (h1 + more)[..|h1 + more| - 1] == h1 + front;
      EngagedHandsOutNothing(h, reason, now, front, key);
      StaysEngaged(h1, more);
    }
  }
}
