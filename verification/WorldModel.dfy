/** Planner and history store side by side: the API calls that drive both, as functions on
    values. */
module WorldModel {
  import opened Prelude
  import opened Scenarios
  import opened RunModel
  import opened PlannerModel
  import S = StoreModel

  datatype World = World(
    planner: PlannerView,
    store: S.StoreView,
    agents: set<string>,
    flag: Option<string>,   // reason written to the killswitch flag file
    envStop: bool)          // APT_SIM_STOP is set

  const EmptyWorld := World(EmptyPlanner, S.EmptyStore, {}, None, false)

  datatype Call =
    | Register(agent: string)
    | Launch(id: RunId, scenario: Scenario, now: Time)
    | Beacon(agent: string, platform: string, now: Time)
    | Result(agent: string, run: RunId, step: StepId, ok: bool, output: string, error: Option<string>, now: Time)
    | Engage(reason: string, now: Time)
    | Disengage
    | RetryRun(id: RunId)
    | CleanupRun(id: RunId)
    | Pause(ids: seq<RunId>)
    | Resume(ids: seq<RunId>)
    | SetEnvironment(stop: bool)

  predicate KillswitchActive(w: World) {
    w.envStop || w.flag.Some?
  }

  function KillswitchReason(w: World): string {
    if w.envStop then "env var APT_SIM_STOP=1" else "flag file present"
  }

  /** What a call asks of the planner. */
  function PlannerPart(w: World, c: Call): Option<PlannerEvent> {
    match c
    case Launch(id, scenario, now) => Some(StartRun(id, scenario, now))
    case Beacon(agent, platform, now) =>
      if agent !in w.agents then None
      else if KillswitchActive(w) then Some(AbortAll(KillswitchReason(w), now))
      else Some(NextTask(agent, platform, now))
    case Result(agent, run, step, ok, output, error, now) =>
      if agent !in w.agents then None else Some(Report(run, step, ok, output, error, now))
    case Engage(reason, now) => Some(AbortAll("killswitch:" + reason, now))
    case RetryRun(id) => Some(RetryFailed(id))
    case Pause(ids) => Some(PauseRuns(ids))
    case Resume(ids) => Some(ResumeRuns(ids))
    case _ => None
  }

  ghost function PlannerAfter(w: World, c: Call): PlannerView {
    var e := PlannerPart(w, c);
    if e.None? then w.planner else Apply(w.planner, e.value)
  }

  function DispatchChange(agent: string): S.Change {
    S.Change(Dispatched, Some(agent), None, None, true, false)
  }

  function ResultChange(ok: bool, output: string, error: Option<string>): S.Change {
    S.Change(if ok then Success else Failed, None, Some(output), error, false, true)
  }

  function AbortChange(error: Option<string>): S.Change {
    S.Change(Aborted, None, None, error, false, true)
  }

  /** Mirrors the aborted steps among the first `n` steps of an aborted run. */
  function MirrorSteps(s: S.StoreView, r: RunView, ids: seq<StepId>, n: nat, now: Time): S.StoreView
    requires n <= |ids|
  {
    if n == 0 then s
    else
      var t := MirrorSteps(s, r, ids, n - 1, now);
      var k := ids[n - 1];
      if k in r.steps && r.steps[k].status.Aborted?
      then S.UpdateStep(t, (r.id, k), AbortChange(r.steps[k].error), now)
      else t
  }

  function MirrorRun(s: S.StoreView, r: RunView, now: Time): S.StoreView {
    if r.status.RunAborted? then
      MirrorSteps(S.UpdateRunStatus(s, r.id, RunAborted, true, now), r, StepIds(r.scenario.steps), |r.scenario.steps|, now)
    else s
  }

  /** Mirrors the first `n` runs, in planner order, after an engagement. */
  function MirrorRuns(s: S.StoreView, p: PlannerView, n: nat, now: Time): S.StoreView
    requires n <= |p.order|
  {
    if n == 0 then s
    else
      var t := MirrorRuns(s, p, n - 1, now);
      if p.order[n - 1] in p.runs then MirrorRun(t, p.runs[p.order[n - 1]], now) else t
  }

  function MirrorAll(s: S.StoreView, p: PlannerView, now: Time): S.StoreView {
    MirrorRuns(s, p, |p.order|, now)
  }

  /** The store after a result; the run row follows as soon as the planner's run is not active. */
  function StoreResult(s: S.StoreView, p: PlannerView, run: RunId, step: StepId, c: S.Change, now: Time): S.StoreView {
    var t := S.UpdateStep(s, (run, step), c, now);
    if run in p.runs && !p.runs[run].status.Active? then S.UpdateRunStatus(t, run, p.runs[run].status, true, now) else t
  }

  ghost function StoreAfter(w: World, c: Call): S.StoreView {
    var p := PlannerAfter(w, c);
    match c
    case Launch(id, scenario, now) =>
      if UniqueIds(scenario.steps) && ValidDag(scenario.steps) then S.CreateRun(w.store, id, scenario, 1) else w.store
    case Beacon(agent, platform, now) =>
      if agent !in w.agents || KillswitchActive(w) || Task(w.planner, platform).None? then w.store
      else S.UpdateStep(w.store, Task(w.planner, platform).value, DispatchChange(agent), now)
    case Result(agent, run, step, ok, output, error, now) =>
      if agent !in w.agents then w.store
      else StoreResult(w.store, p, run, step, ResultChange(ok, output, error), now)
    case Engage(reason, now) => MirrorAll(w.store, p, now)
    case RetryRun(id) => S.RetryStored(w.store, id)
    case CleanupRun(id) => S.CompleteCleanup(w.store, id)
    case _ => w.store
  }

  // ---- The calls ----

  function LaunchIn(w: World, id: RunId, scenario: Scenario, now: Time): World
    requires UniqueIds(scenario.steps)
  {
    w.(planner := AddRun(w.planner, id, scenario, now), store := S.CreateRun(w.store, id, scenario, 1))
  }

  function BeaconIn(w: World, agent: string, platform: string, now: Time): World {
    if agent !in w.agents then w
    else if KillswitchActive(w) then w.(planner := AbortIn(w.planner, KillswitchReason(w), now))
    else if Task(w.planner, platform).None? then w
    else w.(planner := NextIn(w.planner, agent, platform, now),
            store := S.UpdateStep(w.store, Task(w.planner, platform).value, DispatchChange(agent), now))
  }

  function ResultIn(w: World, agent: string, run: RunId, step: StepId, ok: bool, output: string,
                    error: Option<string>, now: Time): World {
    if agent !in w.agents then w
    else
      var p := ReportIn(w.planner, run, step, ok, output, error, now);
      w.(planner := p, store := StoreResult(w.store, p, run, step, ResultChange(ok, output, error), now))
  }

  function EngageIn(w: World, reason: string, now: Time): World {
    var p := AbortIn(w.planner, "killswitch:" + reason, now);
    w.(planner := p, store := MirrorAll(w.store, p, now), flag := Some(reason))
  }

  function RetryRunIn(w: World, id: RunId): World {
    w.(planner := RetryIn(w.planner, id), store := S.RetryStored(w.store, id))
  }

  ghost function Do(w: World, c: Call): World {
    match c
    case Register(agent) => w.(agents := w.agents + {agent})
    case Launch(id, scenario, now) =>
      if UniqueIds(scenario.steps) && ValidDag(scenario.steps) then LaunchIn(w, id, scenario, now) else w
    case Beacon(agent, platform, now) => BeaconIn(w, agent, platform, now)
    case Result(agent, run, step, ok, output, error, now) => ResultIn(w, agent, run, step, ok, output, error, now)
    case Engage(reason, now) => EngageIn(w, reason, now)
    case Disengage => w.(flag := None)
    case RetryRun(id) => RetryRunIn(w, id)
    case CleanupRun(id) => w.(store := S.CompleteCleanup(w.store, id))
    case Pause(ids) => w.(planner := PauseIn(w.planner, ids))
    case Resume(ids) => w.(planner := ResumeIn(w.planner, ids))
    case SetEnvironment(stop) => w.(envStop := stop)
  }

  /** Each call is one planner event, or none, beside one store update. */
  lemma DoParts(w: World, c: Call)
    ensures Do(w, c).planner == PlannerAfter(w, c) && Do(w, c).store == StoreAfter(w, c)
  {
  }

  ghost predicate PlausibleCall(w: World, c: Call) {
    PlannerPart(w, c).Some? ==> Plausible(w.planner, PlannerPart(w, c).value)
  }

  ghost function Reached(h: seq<Call>): World {
    if h == [] then EmptyWorld else Do(Reached(h[..|h| - 1]), h[|h| - 1])
  }

  ghost predicate PlausibleCalls(h: seq<Call>) {
    h != [] ==> PlausibleCalls(h[..|h| - 1]) && PlausibleCall(Reached(h[..|h| - 1]), h[|h| - 1])
  }
}
