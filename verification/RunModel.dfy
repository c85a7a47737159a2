/** One run as a value: the states its steps pass through and the transitions that the
    planner applies to it. The classes in Planner.dfy are proved against these functions;
    RunProperties.dfy proves what the functions keep. */
module RunModel {
  import opened Prelude
  import opened Scenarios

  type RunId = string

  datatype StepStatus = Queued | Dispatched | Running | Success | Failed | Skipped | Aborted
  {
    predicate Terminal() { Success? || Failed? || Skipped? || Aborted? }
    predicate Retryable() { Failed? || Skipped? || Aborted? }
    predicate Satisfied() { Success? || Skipped? }
  }

  datatype RunStatus = Active | Paused | Completed | RunFailed | RunAborted

  datatype StepState = StepState(
    step: ScenarioStep,
    status: StepStatus,
    assignedAgent: Option<string>,
    output: string,
    error: Option<string>,
    startedAt: Time,
    finishedAt: Time)

  datatype RunView = RunView(
    id: RunId,
    scenario: Scenario,
    startedAt: Time,
    finishedAt: Time,
    status: RunStatus,
    steps: map<StepId, StepState>)
  {
    predicate StepReady(k: StepId)
      requires k in steps
    {
      && steps[k].status.Queued?
      && forall d :: d in steps[k].step.dependsOn ==>
           && d in steps
           && !(steps[d].status.Failed? && steps[k].step.abortOnFail)
           && steps[d].status.Satisfied()
    }

    predicate AllTerminal() {
      forall k :: k in steps ==> steps[k].status.Terminal()
    }

    predicate HasFailure() {
      exists k :: k in steps && steps[k].status.Failed?
    }

    /** Whether agents of this platform may work on the run. */
    predicate Accepts(platform: string) {
      "any" in scenario.targetPlatforms || platform in scenario.targetPlatforms
    }
  }

  function FreshStep(step: ScenarioStep): StepState {
    StepState(step, Queued, None, "", None, 0.0, 0.0)
  }

  function FreshSteps(steps: seq<ScenarioStep>): map<StepId, StepState>
    requires UniqueIds(steps)
  {
    var t := StepsById(steps);
    map k | k in t :: FreshStep(t[k])
  }

  /** The immutable part of the step table. */
  function StepTable(r: RunView): (t: map<StepId, ScenarioStep>)
    ensures t.Keys == r.steps.Keys
  {
    map k | k in r.steps :: r.steps[k].step
  }

  function Started(id: RunId, scenario: Scenario, now: Time): RunView
    requires UniqueIds(scenario.steps)
  {
    RunView(id, scenario, now, 0.0, Active, FreshSteps(scenario.steps))
  }

  function PauseRun(r: RunView): RunView {
    if r.status.Active? then r.(status := Paused) else r
  }

  function ResumeRun(r: RunView): RunView {
    if r.status.Paused? then r.(status := Active) else r
  }

  function RetryStep(s: StepState): StepState {
    if s.status.Retryable() then FreshStep(s.step) else s
  }

  function RetryableSteps(r: RunView): set<StepId> {
    set k | k in r.steps && r.steps[k].status.Retryable()
  }

  function RetriedSteps(r: RunView): map<StepId, StepState> {
    map k | k in r.steps :: RetryStep(r.steps[k])
  }

  function RetryRun(r: RunView): RunView {
    var retried := r.(steps := RetriedSteps(r));
    if RetryableSteps(r) == {} then retried else retried.(status := Active, finishedAt := 0.0)
  }

  function DispatchStep(r: RunView, k: StepId, agent: string, now: Time): RunView
    requires k in r.steps
  {
    r.(steps := r.steps[k := r.steps[k].(status := Dispatched, assignedAgent := Some(agent), startedAt := now)])
  }

  function SkipStep(s: StepState): StepState {
    if s.status.Queued? then s.(status := Skipped) else s
  }

  /** The result is recorded whatever the step's status was. */
  function RecordResult(r: RunView, k: StepId, ok: bool, output: string, error: Option<string>, now: Time): RunView
    requires k in r.steps
  {
    r.(steps := r.steps[k := r.steps[k].(
      status := if ok then Success else Failed, output := output, error := error, finishedAt := now)])
  }

  function CascadeSkips(r: RunView): RunView {
    r.(steps := map k | k in r.steps :: SkipStep(r.steps[k]))
  }

  function Conclude(r: RunView, now: Time): RunView {
    if r.AllTerminal() then
      r.(status := if r.HasFailure() then RunFailed else Completed, finishedAt := now)
    else r
  }

  function ReportStep(r: RunView, k: StepId, ok: bool, output: string, error: Option<string>, now: Time): RunView
    requires k in r.steps
  {
    var recorded := RecordResult(r, k, ok, output, error, now);
    Conclude(if !ok && r.steps[k].step.abortOnFail then CascadeSkips(recorded) else recorded, now)
  }

  function AbortStep(s: StepState, reason: string, now: Time): StepState {
    if s.status.Queued? || s.status.Dispatched? || s.status.Running? then
      s.(status := Aborted, error := Some(reason), finishedAt := now)
    else s
  }

  function AbortRun(r: RunView, reason: string, now: Time): RunView {
    if r.status.Active? then
      r.(status := RunAborted, finishedAt := now, steps := map k | k in r.steps :: AbortStep(r.steps[k], reason, now))
    else r
  }
}
