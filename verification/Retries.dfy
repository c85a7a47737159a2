/** Attempt limits: what the engine's status report counts as retryable, and what a retry does. */
module Retries {
  import opened Prelude
  import opened Graphs
  import opened Scenarios
  import opened RunModel
  import opened RunProperties
  import opened PlannerModel
  import opened WorldModel
  import opened Simulation
  import S = StoreModel

  // ---- Every row allows one attempt ----

  predicate AllOne(s: S.StoreView) {
    forall key :: key in s.queue ==> s.queue[key].maxAttempts == 1
  }

  lemma {:induction false} AddRowsAllOne(s: S.StoreView, id: RunId, steps: seq<ScenarioStep>, n: nat)
    requires n <= |steps| && AllOne(s)
    ensures AllOne(S.AddRows(s, id, steps, n, 1))
  {
    if n > 0 {
      AddRowsAllOne(s, id, steps, n - 1);
    }
  }

  lemma {:induction false} MirrorStepsAllOne(s: S.StoreView, r: RunView, ids: seq<StepId>, n: nat, now: Time)
    requires n <= |ids| && AllOne(s)
    ensures AllOne(MirrorSteps(s, r, ids, n, now))
  {
    if n > 0 {
      MirrorStepsAllOne(s, r, ids, n - 1, now);
    }
  }

  lemma {:induction false} MirrorRunsAllOne(s: S.StoreView, p: PlannerView, n: nat, now: Time)
    requires n <= |p.order| && AllOne(s)
    ensures AllOne(MirrorRuns(s, p, n, now))
  {
    if n > 0 {
      MirrorRunsAllOne(s, p, n - 1, now);
      var id, t := p.order[n - 1], MirrorRuns(s, p, n - 1, now);
      if id in p.runs && p.runs[id].status.RunAborted? {
        var r := p.runs[id];
        MirrorStepsAllOne(S.UpdateRunStatus(t, r.id, RunAborted, true, now), r, StepIds(r.scenario.steps),
                          |r.scenario.steps|, now);
      }
    }
  }

  lemma CallKeepsAllOne(w: World, c: Call)
    requires AllOne(w.store)
    ensures AllOne(StoreAfter(w, c))
  {
    match c
    case Launch(id, scenario, now) =>
      AddRowsAllOne(w.store.(runs := w.store.runs[id := S.RunRow(scenario.name, Active, None)]), id, scenario.steps,
                    |scenario.steps|);
    case Engage(reason, now) => MirrorRunsAllOne(w.store, PlannerAfter(w, c), |PlannerAfter(w, c).order|, now);
    case _ =>
  }

  /** In every reachable store each queue row allows exactly one attempt. */
  lemma {:induction false} ReachedAllOne(h: seq<Call>)
    ensures AllOne(Reached(h).store)
  {
    if h != [] {
      ReachedAllOne(h[..|h| - 1]);
      CallKeepsAllOne(Reached(h[..|h| - 1]), h[|h| - 1]);
      DoParts(Reached(h[..|h| - 1]), h[|h| - 1]);
    }
  }

  // ---- The limit against what happens ----

  /** The counter exceeds the limit exactly for steps that were handed out at least twice. */
  lemma OverLimitIffHandedOutTwice(h: seq<Call>, key: S.Key)
    requires PlausibleCalls(h) && key in Reached(h).store.queue
    ensures var row := Reached(h).store.queue[key]; row.attempt > row.maxAttempts <==> CallHandouts(h, key) >= 2
  {
    ReachedAllOne(h);
    AttemptsCountHandouts(h, key);
  }

  /** The status report counts a failed, skipped or aborted step as retryable exactly if it was never
      handed out. */
  lemma CountedIffNeverHandedOut(h: seq<Call>, key: S.Key)
    requires PlausibleCalls(h) && key in Reached(h).store.queue
    ensures var row := Reached(h).store.queue[key];
            S.CountedRetryable(row) <==> row.status.Retryable() && CallHandouts(h, key) == 0
  {
    ReachedAllOne(h);
    AttemptsCountHandouts(h, key);
  }

  /** So a step that failed after a hand-out is not counted, and a retry requeues it all the same, in
      the planner and in the store. */
  lemma RetriedAlthoughNotCounted(h: seq<Call>, key: S.Key)
    requires PlausibleCalls(h) && key in Reached(h).store.queue
    requires Reached(h).store.queue[key].status.Failed? && CallHandouts(h, key) >= 1
    ensures !S.CountedRetryable(Reached(h).store.queue[key])
    ensures var w := Do(Reached(h), RetryRun(key.0));
            && key in w.store.queue && w.store.queue[key].status.Queued? && w.store.queue[key].attempt >= w.store.queue[key].maxAttempts
            && HasStep(w.planner, key) && Planned(w.planner, key).Queued?
  {
    var w := Reached(h);
    CountedIffNeverHandedOut(h, key);
    ReachedAllOne(h);
    AttemptsCountHandouts(h, key);
    ReachedStep(h, key);
    assert key.0 in w.store.runs;
  }

  // ---- A history that exceeds the limit ----

  const ID: RunId := "r"
  const ONE_STEP := Scenario("s", ["any"], [ScenarioStep("k", "T1033", [], 60, false)])
  const AGENT := "a"

  function TwoAttempts(now: Time): seq<Call> {
    [Register(AGENT), Launch(ID, ONE_STEP, now)] + [Beacon(AGENT, "linux", now)]
    + [Result(AGENT, ID, "k", false, "", None, now)] + [RetryRun(ID)] + [Beacon(AGENT, "linux", now)]
  }

  lemma {:induction false} ReachedStepwise(h: seq<Call>, c: Call)
    ensures Reached(h + [c]) == Do(Reached(h), c)
    ensures PlausibleCalls(h + [c]) <==> PlausibleCalls(h) && PlausibleCall(Reached(h), c)
  {
    assert (h + [c])[..|h + [c]| - 1] == h;
  }

  lemma OneStepIsValid()
    ensures UniqueIds(ONE_STEP.steps) && ValidDag(ONE_STEP.steps)
  {
    var steps := ONE_STEP.steps;
    var ids := StepIds(steps);
    assert ids == ["k"];
    var g := DependencyGraph(steps);
    assert g[steps[0].id] == Elements(steps[0].dependsOn) == {};
    assert ids[..0] == [];
    assert ComesAfter(g, ids, 0);
    assert Elements(ids) == {"k"};
    OrderedIsAcyclic(g, ids);
  }

  /** The run with its only step in the given state. */
  predicate OnlyRun(p: PlannerView, status: StepStatus) {
    && p.order == [ID] && p.runs.Keys == {ID} && p.runs[ID].id == ID
    && p.runs[ID].scenario == ONE_STEP && p.runs[ID].status.Active?
    && p.runs[ID].steps.Keys == {"k"} && p.runs[ID].steps["k"].step == ONE_STEP.steps[0]
    && p.runs[ID].steps["k"].status == status
  }

  lemma QueuedIsHandedOut(p: PlannerView, now: Time)
    requires OnlyRun(p, Queued)
    ensures Task(p, "linux") == Some((ID, "k"))
    ensures OnlyRun(NextIn(p, AGENT, "linux", now), Dispatched)
  {
    var r := p.runs[ID];
    assert StepIds(r.scenario.steps)[0] == "k";
    assert r.StepReady("k");
    assert ReadyStep(r) == Some("k");
    assert "any" in r.scenario.targetPlatforms;
    assert FirstTask(p.runs, p.order, 0, Lower("linux")) == Some((ID, "k"));
  }

  lemma FailedIsRequeued(p: PlannerView, now: Time)
    requires OnlyRun(p, Dispatched) && now > 0.0
    ensures OnlyRun(RetryIn(ReportIn(p, ID, "k", false, "", None, now), ID), Queued)
  {
    var r := p.runs[ID];
    var r' := ReportStep(r, "k", false, "", None, now);
    assert r'.steps["k"].status.Failed? && r'.steps.Keys == {"k"};
    assert "k" in RetryableSteps(r');
  }

  lemma FreshRunIsQueued(w: World, now: Time)
    requires w.planner == EmptyPlanner && UniqueIds(ONE_STEP.steps) && ValidDag(ONE_STEP.steps)
    ensures PlausibleCall(w, Launch(ID, ONE_STEP, now))
    ensures OnlyRun(Do(w, Launch(ID, ONE_STEP, now)).planner, Queued)
  {
    var r := Started(ID, ONE_STEP, now);
    StartedIsQueued(ID, ONE_STEP, now);
    assert StepIds(ONE_STEP.steps) == ["k"];
    assert r.steps.Keys == StepTable(r).Keys == {"k"};
  }

  lemma HandoutsAdd(h: seq<Call>, c: Call, key: S.Key)
    ensures CallHandouts(h + [c], key) == CallHandouts(h, key) + if CallHandsOut(Reached(h), c, key) then 1 else 0
  {
    assert (h + [c])[..|h + [c]| - 1] == h;
  }

  /** The history has led to the only run with its step in this state after `n` hand-outs. */
  ghost predicate Stage(h: seq<Call>, status: StepStatus, n: nat) {
    && PlausibleCalls(h) && OnlyRun(Reached(h).planner, status)
    && AGENT in Reached(h).agents && !KillswitchActive(Reached(h)) && CallHandouts(h, (ID, "k")) == n
  }

  lemma StageLaunched(now: Time)
    ensures Stage([Register(AGENT), Launch(ID, ONE_STEP, now)], Queued, 0)
  {
    var c0, c1 := Register(AGENT), Launch(ID, ONE_STEP, now);
    OneStepIsValid();
    ReachedStepwise([], c0);
    HandoutsAdd([], c0, (ID, "k"));
    assert [] + [c0] == [c0];
    FreshRunIsQueued(Reached([c0]), now);
    ReachedStepwise([c0], c1);
    HandoutsAdd([c0], c1, (ID, "k"));
    assert [c0] + [c1] == [c0, c1];
  }

  lemma StageHandedOut(h: seq<Call>, n: nat, now: Time)
    requires Stage(h, Queued, n)
    ensures Stage(h + [Beacon(AGENT, "linux", now)], Dispatched, n + 1)
  {
    var c := Beacon(AGENT, "linux", now);
    ReachedStepwise(h, c);
    HandoutsAdd(h, c, (ID, "k"));
    QueuedIsHandedOut(Reached(h).planner, now);
  }

  lemma StageRetried(h: seq<Call>, n: nat, now: Time)
    requires Stage(h, Dispatched, n) && now > 0.0
    ensures Stage(h + [Result(AGENT, ID, "k", false, "", None, now)] + [RetryRun(ID)], Queued, n)
  {
    var c, d := Result(AGENT, ID, "k", false, "", None, now), RetryRun(ID);
    ReachedStepwise(h, c);
    HandoutsAdd(h, c, (ID, "k"));
    ReachedStepwise(h + [c], d);
    HandoutsAdd(h + [c], d, (ID, "k"));
    FailedIsRequeued(Reached(h).planner, now);
  }

  /** The witness: a failed step is retried and handed out again, beyond its limit. */
  lemma LimitIsExceeded(now: Time)
    requires now > 0.0
    ensures var h, key := TwoAttempts(now), (ID, "k");
            && PlausibleCalls(h) && key in Reached(h).store.queue
            && Reached(h).store.queue[key].attempt == 2 && Reached(h).store.queue[key].maxAttempts == 1
  {
    TwoAttemptsStage(now);
    StageCounts(TwoAttempts(now));
  }

  lemma TwoAttemptsStage(now: Time)
    requires now > 0.0
    ensures Stage(TwoAttempts(now), Dispatched, 2)
  {
    var h2, beacon := [Register(AGENT), Launch(ID, ONE_STEP, now)], Beacon(AGENT, "linux", now);
    var h3 := h2 + [beacon];
    StageLaunched(now);
    StageHandedOut(h2, 0, now);
    StageRetried(h3, 1, now);
    StageHandedOut(h3 + [Result(AGENT, ID, "k", false, "", None, now)] + [RetryRun(ID)], 1, now);
  }

  lemma StageCounts(h: seq<Call>)
    requires Stage(h, Dispatched, 2)
    ensures var key := (ID, "k");
            && key in Reached(h).store.queue
            && Reached(h).store.queue[key].attempt == 2 && Reached(h).store.queue[key].maxAttempts == 1
  {
    var key := (ID, "k");
    AttemptsCountHandouts(h, key);
    ReachedStep(h, key);
    ReachedAllOne(h);
  }
}
