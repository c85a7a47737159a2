/** Reachable histories for what the code does against its documentation: unlogged changes, an aborted run
    that a late result completes, and a paused run that survives the kill switch. */
module Witnesses {
  import opened Prelude
  import opened Graphs
  import opened Scenarios
  import opened RunModel
  import opened RunProperties
  import opened PlannerModel
  import opened WorldModel
  import opened Simulation
  import opened Retries
  import opened Trail
  import S = StoreModel

  const KEY: S.Key := (ID, "k")

  lemma TrailAppended(h: seq<Call>, c: Call)
    ensures TrailOf(h + [c]) == TrailOf(h) + Appended(Reached(h), c)
  {
    assert (h + [c])[..|h + [c]| - 1] == h;
  }

  /** A history that registers an agent and launches the one-step scenario. */
  lemma LaunchedHistory(now: Time) returns (h: seq<Call>)
    ensures Stage(h, Queued, 0)
  {
    StageLaunched(now);
    h := [Register(AGENT), Launch(ID, ONE_STEP, now)];
  }

  /** The same, with the step handed out. */
  lemma DispatchedHistory(now: Time) returns (h: seq<Call>)
    ensures Stage(h, Dispatched, 1)
  {
    var start := LaunchedHistory(now);
    StageHandedOut(start, 0, now);
    h := start + [HandOut(now)];
  }

  function HandOut(now: Time): Call {
    Beacon(AGENT, "linux", now)
  }

  function Succeed(now: Time): Call {
    Result(AGENT, ID, "k", true, "", None, now)
  }

  // ---- An abort without an entry ----

  lemma HaltedRun(p: PlannerView, reason: string, now: Time)
    requires p.runs.Keys == {ID} && p.runs[ID].status.Active?
    ensures AbortIn(p, reason, now).runs.Keys == {ID} && AbortIn(p, reason, now).runs[ID].status.RunAborted?
  {
  }

  ghost predicate RunIs(h: seq<Call>, status: RunStatus) {
    PlausibleCalls(h) && ID in Reached(h).planner.runs && Reached(h).planner.runs[ID].status == status
  }

  /** The same log, but the run is active after one history and aborted after the other. */
  ghost predicate SameLogOtherState(h: seq<Call>, h': seq<Call>) {
    TrailOf(h') == TrailOf(h) && RunIs(h, Active) && RunIs(h', RunAborted)
  }

  /** Two histories with the same audit log, one with the run active and one with it aborted: the log does not
      determine the state. */
  lemma SilentAbort(now: Time) returns (h: seq<Call>, h': seq<Call>)
    requires now > 0.0
    ensures SameLogOtherState(h, h')
  {
    h := LaunchedHistory(now);
    var h3 := h + [SetEnvironment(true)];
    h' := h3 + [HandOut(now)];
    ReachedStepwise(h, SetEnvironment(true));
    ReachedStepwise(h3, HandOut(now));
    TrailAppended(h, SetEnvironment(true));
    TrailAppended(h3, HandOut(now));
    HaltedRun(Reached(h3).planner, KillswitchReason(Reached(h3)), now);
  }

  // ---- The end of a run ----

  lemma SuccessCompletes(p: PlannerView, now: Time)
    requires p.runs.Keys == {ID} && p.runs[ID].steps.Keys == {"k"}
    ensures ReportIn(p, ID, "k", true, "", None, now).runs.Keys == {ID}
    ensures ReportIn(p, ID, "k", true, "", None, now).runs[ID].status.Completed?
  {
    var r' := RecordResult(p.runs[ID], "k", true, "", None, now);
    assert r'.steps["k"].status.Success? && r'.steps.Keys == {"k"};
    assert r'.AllTerminal() && !r'.HasFailure();
  }

  /** The result after the history completes the run, and its own entry is all that is logged. */
  ghost predicate EndsWithStepEntry(h: seq<Call>, now: Time) {
    && RunIs(h, Active) && Appended(Reached(h), Succeed(now)) == [TaskResult(AGENT, ID, "k", true, None)]
    && (var p := Do(Reached(h), Succeed(now)).planner; ID in p.runs && p.runs[ID].status.Completed?)
  }

  /** A run ends as completed, and the only entry about it is the one of its last step. */
  lemma EndWithoutEntry(now: Time) returns (h: seq<Call>)
    ensures EndsWithStepEntry(h, now)
  {
    h := DispatchedHistory(now);
    SuccessCompletes(Reached(h).planner, now);
  }

  // ---- An aborted run that a late result completes ----

  /** The run is aborted, and the result that follows completes it. */
  ghost predicate CompletesAfterAbort(h: seq<Call>, now: Time) {
    RunIs(h, RunAborted) && RunIs(h + [Succeed(now)], Completed)
  }

  /** The kill switch aborts the run while its step is out; the result that comes in afterwards completes it. */
  lemma AbortedRunCompletes(reason: string, now: Time) returns (h: seq<Call>)
    requires now > 0.0
    ensures CompletesAfterAbort(h, now)
  {
    var h3 := DispatchedHistory(now);
    ReachedStepwise(h3, Engage(reason, now));
    HaltedRun(Reached(h3).planner, "killswitch:" + reason, now);
    AbortKeepsSteps(Reached(h3).planner, "killswitch:" + reason, now);
    h := h3 + [Engage(reason, now)];
    ReachedStepwise(h, Succeed(now));
    SuccessCompletes(Reached(h).planner, now);
  }

  lemma AbortKeepsSteps(p: PlannerView, reason: string, now: Time)
    requires p.runs.Keys == {ID}
    ensures AbortIn(p, reason, now).runs.Keys == {ID} && AbortIn(p, reason, now).runs[ID].steps.Keys == p.runs[ID].steps.Keys
  {
  }

  // ---- A paused run that survives the kill switch ----

  lemma PausedSurvives(p: PlannerView, reason: string, now: Time)
    requires OnlyRun(p, Queued)
    ensures OnlyRun(ResumeIn(AbortIn(PauseIn(p, [ID]), reason, now), [ID]), Queued)
  {
  }

  /** Paused, engaged, released and resumed, the history leads on to a hand-out. */
  ghost predicate GoesOn(start: seq<Call>, reason: string, now: Time) {
    var h := start + [Pause([ID])] + [Engage(reason, now)] + [Disengage] + [Resume([ID])];
    PlausibleCalls(h) && CallHandsOut(Reached(h), HandOut(now), KEY)
  }

  /** Engaging the kill switch leaves a paused run alone; released and resumed, the run hands out its step. */
  lemma PausedRunGoesOn(reason: string, now: Time) returns (start: seq<Call>)
    requires now > 0.0
    ensures GoesOn(start, reason, now)
  {
    start := LaunchedHistory(now);
    var h3 := start + [Pause([ID])];
    var h4 := h3 + [Engage(reason, now)];
    var h5 := h4 + [Disengage];
    ReachedStepwise(start, Pause([ID]));
    ReachedStepwise(h3, Engage(reason, now));
    ReachedStepwise(h4, Disengage);
    ReachedStepwise(h5, Resume([ID]));
    PausedSurvives(Reached(start).planner, "killswitch:" + reason, now);
    QueuedIsHandedOut(Reached(h5 + [Resume([ID])]).planner, now);
  }

  // ---- A cascade without an entry ----

  const TWO_STEPS := Scenario("t", ["any"],
    [ScenarioStep("a", "T1033", [], 60, true), ScenarioStep("b", "T1083", [], 60, false)])

  lemma TwoStepsAreValid()
    ensures UniqueIds(TWO_STEPS.steps) && ValidDag(TWO_STEPS.steps)
  {
    var steps := TWO_STEPS.steps;
    var ids := StepIds(steps);
    assert ids == ["a", "b"];
    assert "a"[0] != "b"[0];
    NothingDependsIsValid(steps);
  }

  lemma NothingDependsIsValid(steps: seq<ScenarioStep>)
    requires UniqueIds(steps) && forall i :: 0 <= i < |steps| ==> steps[i].dependsOn == []
    ensures ValidDag(steps)
  {
    var g, ids := DependencyGraph(steps), StepIds(steps);
    forall i | 0 <= i < |ids| ensures ComesAfter(g, ids, i) {
      assert g[steps[i].id] == Elements(steps[i].dependsOn);
    }
    OrderedIsAcyclic(g, ids);
  }

  lemma TwoStepsQueued(now: Time)
    requires UniqueIds(TWO_STEPS.steps)
    ensures Exposed(Started(ID, TWO_STEPS, now), "a", "b")
  {
    var r, steps := Started(ID, TWO_STEPS, now), TWO_STEPS.steps;
    assert "a"[0] != "b"[0];
    StartedIsQueued(ID, TWO_STEPS, now);
    assert StepTable(r)[steps[0].id] == steps[0] && StepTable(r)[steps[1].id] == steps[1];
  }

  /** The step has been skipped, and no entry of the log names it. */
  ghost predicate SkippedUnnamed(h: seq<Call>, b: StepId) {
    && PlausibleCalls(h) && HasStep(Reached(h).planner, (ID, b)) && Planned(Reached(h).planner, (ID, b)).Skipped?
    && NamedNowhere(TrailOf(h), (ID, b))
  }

  /** A step is skipped when another one fails, and no entry of the whole log names it. */
  lemma CascadeWithoutEntry(now: Time) returns (h: seq<Call>)
    requires now > 0.0
    ensures SkippedUnnamed(h, "b")
  {
    TwoStepsAreValid();
    TwoStepsQueued(now);
    h := CascadeOf(TWO_STEPS, "a", "b", now);
  }

  /** The run has both steps, `b` still waits and `a` aborts on failure. */
  predicate Exposed(r: RunView, a: StepId, b: StepId) {
    a != b && a in r.steps && b in r.steps && r.steps[b].status.Queued? && r.steps[a].step.abortOnFail
  }

  lemma CascadeOf(scenario: Scenario, a: StepId, b: StepId, now: Time) returns (h: seq<Call>)
    requires UniqueIds(scenario.steps) && ValidDag(scenario.steps) && Exposed(Started(ID, scenario, now), a, b) && now > 0.0
    ensures SkippedUnnamed(h, b)
  {
    var start := ExposedHistory(scenario, a, b, now);
    CascadeAfter(start, a, b, now);
    h := start + [Result(AGENT, ID, a, false, "", None, now)];
  }

  /** The history leads to such a run, and no entry so far names `b`. */
  ghost predicate LeadsToExposed(h: seq<Call>, a: StepId, b: StepId) {
    && PlausibleCalls(h) && AGENT in Reached(h).agents && NamedNowhere(TrailOf(h), (ID, b))
    && ID in Reached(h).planner.runs && Exposed(Reached(h).planner.runs[ID], a, b)
  }

  lemma ExposedHistory(scenario: Scenario, a: StepId, b: StepId, now: Time) returns (h: seq<Call>)
    requires UniqueIds(scenario.steps) && ValidDag(scenario.steps) && Exposed(Started(ID, scenario, now), a, b)
    ensures LeadsToExposed(h, a, b)
  {
    h := StartedHistory(scenario, now);
    StartNamesNoStep(TrailOf(h), scenario.name, (ID, b));
  }

  lemma StartNamesNoStep(trail: seq<Trail.Entry>, name: string, key: S.Key)
    requires trail == [AgentRegister(AGENT), RunStart(ID, name)]
    ensures NamedNowhere(trail, key)
  {
  }

  /** In any history that leads to such a run, a failure of `a` skips `b` with an entry about `a` only. */
  lemma CascadeAfter(start: seq<Call>, a: StepId, b: StepId, now: Time)
    requires LeadsToExposed(start, a, b)
    requires now > 0.0
    ensures var h := start + [Result(AGENT, ID, a, false, "", None, now)];
            SkippedUnnamed(h, b)
  {
    var c := Result(AGENT, ID, a, false, "", None, now);
    ReachedStepwise(start, c);
    TrailAppended(start, c);
    assert Cascaded(Reached(start), c, (ID, b));
    StepTransition(Reached(start), c, (ID, b));
  }

  predicate NamedNowhere(trail: seq<Trail.Entry>, key: S.Key) {
    forall i :: 0 <= i < |trail| ==> !NamesStep(trail[i], key)
  }

  ghost predicate JustStarted(h: seq<Call>, scenario: Scenario, now: Time)
    requires UniqueIds(scenario.steps)
  {
    && PlausibleCalls(h) && AGENT in Reached(h).agents
    && Reached(h).planner.runs == map[ID := Started(ID, scenario, now)]
    && TrailOf(h) == [AgentRegister(AGENT), RunStart(ID, scenario.name)]
  }

  /** A history that registers an agent and launches a valid scenario. */
  lemma StartedHistory(scenario: Scenario, now: Time) returns (h: seq<Call>)
    requires UniqueIds(scenario.steps) && ValidDag(scenario.steps)
    ensures JustStarted(h, scenario, now)
  {
    var h1 := RegisteredHistory();
    var c := Launch(ID, scenario, now);
    ReachedStepwise(h1, c);
    TrailAppended(h1, c);
    h := h1 + [c];
  }

  ghost predicate JustRegistered(h: seq<Call>) {
    && PlausibleCalls(h) && Reached(h).planner == EmptyPlanner && AGENT in Reached(h).agents
    && TrailOf(h) == [AgentRegister(AGENT)]
  }

  lemma RegisteredHistory() returns (h: seq<Call>)
    ensures JustRegistered(h)
  {
    ReachedStepwise([], Register(AGENT));
    TrailAppended([], Register(AGENT));
    h := [] + [Register(AGENT)];
  }
}
