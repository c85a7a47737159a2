/** The API handlers: each drives the planner and the history store in lockstep, and is
    proved to perform the corresponding call of WorldModel.dfy. */
module Orchestrator {
  import opened Prelude
  import opened Graphs
  import opened Scenarios
  import opened RunModel
  import opened PlannerModel
  import opened WorldModel
  import Planner
  import Repository
  import S = StoreModel

  datatype BeaconResponse =
    | UnknownAgent
    | Halted(reason: string)
    | Idle
    | Assigned(run: RunId, step: StepId, attackId: string, timeoutSeconds: int)

  class AppState {
    const planner: Planner.Planner
    const repo: Repository.Repository
    var agents: set<string>
    var flag: Option<string>
    var envStop: bool

    ghost predicate Valid()
      reads this, planner, planner.Objects()
    {
      planner.Valid()
    }

    ghost function View(): World
      reads this, planner, planner.Objects(), repo
    {
      World(planner.View(), repo.View(), agents, flag, envStop)
    }

    constructor ()
      ensures Valid()
      ensures View() == EmptyWorld
    {
      planner := new Planner.Planner();
      repo := new Repository.Repository();
      agents, flag, envStop := {}, None, false;
    }

    predicate KillswitchOn()
      reads this
    {
      envStop || flag.Some?
    }

    function Reason(): string
      reads this
    {
      if envStop then "env var APT_SIM_STOP=1" else "flag file present"
    }

    method Register(agent: string)
      requires Valid()
      modifies this`agents
      ensures Valid()
      ensures View() == old(View()).(agents := old(agents) + {agent})
    {
      agents := agents + {agent};
    }

    /** Starts a run in the planner and records it in the store; a scenario that fails
        validation leaves both untouched. */
    method Launch(id: RunId, scenario: Scenario, now: Time) returns (r: DagCheck)
      requires Valid() && UniqueIds(scenario.steps)
      modifies planner, repo
      ensures Valid()
      ensures View() == if r.DagOk? then LaunchIn(old(View()), id, scenario, now) else old(View())
      ensures r.DagOk? <==> ValidDag(scenario.steps)
    {
      r := planner.StartRun(id, scenario, now);
      if r.DagOk? {
        StoreRun(id, scenario);
      }
    }

    method StoreRun(id: RunId, scenario: Scenario)
      requires Valid()
      modifies repo
      ensures Valid() && planner.View() == old(planner.View())
      ensures repo.View() == S.CreateRun(old(repo.View()), id, scenario, 1)
    {
      repo.CreateRun(id, scenario, 1);
    }

    method Beacon(agent: string, platform: string, now: Time) returns (response: BeaconResponse)
      requires Valid()
      modifies planner.Objects(), repo
      ensures Valid()
      ensures View() == BeaconIn(old(View()), agent, platform, now)
      ensures response.UnknownAgent? <==> agent !in agents
      ensures response.Halted? <==> agent in agents && KillswitchOn()
      ensures response.Idle? <==> agent in agents && !KillswitchOn() && Task(old(View()).planner, platform).None?
      ensures response.Assigned? ==> Task(old(View()).planner, platform) == Some((response.run, response.step))
      ensures response.Assigned? ==>
                var step := old(View()).planner.runs[response.run].steps[response.step].step;
                response.attackId == step.ttp && response.timeoutSeconds == step.timeoutSeconds
      ensures response.Halted? ==> response.reason == if envStop then "env var APT_SIM_STOP=1" else "flag file present"
    {
      if agent !in agents {
        return UnknownAgent;
      }
      if KillswitchOn() {
        var aborted := HaltPlanner(Reason(), now);
        return Halted(Reason());
      }
      var next := planner.NextTaskForAgent(agent, platform, now);
      if next.None? {
        return Idle;
      }
      var run, k := next.value.0, next.value.1;
      StoreDispatch((run.id, k), agent, now);
      return Assigned(run.id, k, run.steps[k].step.ttp, run.steps[k].step.timeoutSeconds);
    }

    method StoreDispatch(key: S.Key, agent: string, now: Time)
      requires Valid()
      modifies repo
      ensures Valid() && planner.View() == old(planner.View())
      ensures repo.View() == S.UpdateStep(old(repo.View()), key, DispatchChange(agent), now)
    {
      repo.UpdateStep(key, DispatchChange(agent), now);
    }

    method ReportResult(agent: string, runId: RunId, stepId: StepId, ok: bool, output: string, error: Option<string>, now: Time)
      returns (known: bool)
      requires Valid()
      modifies planner.Objects(), repo
      ensures Valid()
      ensures View() == ResultIn(old(View()), agent, runId, stepId, ok, output, error, now)
      ensures known <==> agent in agents
    {
      if agent !in agents {
        return false;
      }
      planner.ReportResult(runId, stepId, ok, output, error, now);
      RecordResult(runId, stepId, ResultChange(ok, output, error), now);
      return true;
    }

    /** The store side of a result. */
    method RecordResult(runId: RunId, stepId: StepId, c: S.Change, now: Time)
      requires Valid()
      modifies repo
      ensures Valid() && planner.View() == old(planner.View())
      ensures repo.View() == StoreResult(old(repo.View()), planner.View(), runId, stepId, c, now)
    {
      repo.UpdateStep((runId, stepId), c, now);
      if runId in planner.runs && !planner.runs[runId].status.Active? {
        repo.UpdateRunStatus(runId, planner.runs[runId].status, true, now);
      }
    }

    /** Sets the flag, aborts every active run and mirrors the aborted runs to the store. */
    method Engage(reason: string, now: Time) returns (aborted: nat)
      requires Valid()
      modifies this`flag, planner.Objects(), repo
      ensures Valid()
      ensures View() == EngageIn(old(View()), reason, now)
      ensures aborted == |Planner.ActiveRuns(old(planner.View()))|
    {
      ghost var before := View();
      RaiseFlag(reason);
      aborted := HaltAndMirror("killswitch:" + reason, now);
      EngageIsCall(before, reason, now);
    }

    method HaltAndMirror(reason: string, now: Time) returns (aborted: nat)
      requires Valid()
      modifies planner.Objects(), repo
      ensures Valid()
      ensures planner.View() == AbortIn(old(planner.View()), reason, now)
      ensures repo.View() == MirrorAll(old(repo.View()), planner.View(), now)
      ensures aborted == |Planner.ActiveRuns(old(planner.View()))|
    {
      aborted := HaltPlanner(reason, now);
      Mirror(now);
    }

    method RaiseFlag(reason: string)
      requires Valid()
      modifies this`flag
      ensures Valid() && planner.View() == old(planner.View())
      ensures flag == Some(reason)
    {
      flag := Some(reason);
    }

    /** The parts of an engagement make up the call of the same name. */
    lemma EngageIsCall(before: World, reason: string, now: Time)
      requires flag == Some(reason) && agents == before.agents && envStop == before.envStop
      requires planner.View() == AbortIn(before.planner, "killswitch:" + reason, now)
      requires repo.View() == MirrorAll(before.store, planner.View(), now)
      ensures View() == EngageIn(before, reason, now)
    {
    }

    method HaltPlanner(reason: string, now: Time) returns (aborted: nat)
      requires Valid()
      modifies planner.Objects()
      ensures Valid() && repo.View() == old(repo.View())
      ensures planner.View() == AbortIn(old(planner.View()), reason, now)
      ensures aborted == |Planner.ActiveRuns(old(planner.View()))|
    {
      aborted := planner.AbortAll(reason, now);
    }

    method Mirror(now: Time)
      requires Valid()
      modifies repo
      ensures Valid() && planner.View() == old(planner.View())
      ensures repo.View() == MirrorAll(old(repo.View()), planner.View(), now)
    {
      ghost var start, p := repo.View(), planner.View();
      for i := 0 to |planner.order|
        invariant planner.View() == p && repo.View() == MirrorRuns(start, p, i, now)
      {
        assert planner.order[i] in Elements(planner.order);
        var run := planner.runs[planner.order[i]];
        assert p.runs[planner.order[i]] == run.View();
        MirrorOne(run, now);
      }
    }

    method MirrorOne(run: Planner.Run, now: Time)
      modifies repo
      ensures repo.View() == MirrorRun(old(repo.View()), run.View(), now)
    {
      if run.status.RunAborted? {
        repo.UpdateRunStatus(run.id, RunAborted, true, now);
        ghost var start := repo.View();
        var ids := StepIds(run.scenario.steps);
        for j := 0 to |ids|
          invariant repo.View() == MirrorSteps(start, run.View(), ids, j, now)
        {
          if ids[j] in run.steps && run.steps[ids[j]].status.Aborted? {
            repo.UpdateStep((run.id, ids[j]), AbortChange(run.steps[ids[j]].error), now);
          }
        }
      }
    }

    method Disengage()
      requires Valid()
      modifies this`flag
      ensures Valid()
      ensures View() == old(View()).(flag := None)
    {
      flag := None;
    }

    method RetryFailedRun(id: RunId) returns (plannerSteps: nat, storedSteps: nat)
      requires Valid()
      modifies planner.Objects(), repo
      ensures Valid()
      ensures View() == RetryRunIn(old(View()), id)
      ensures id in planner.runs && id in old(View()).store.runs ==>
                plannerSteps == |RetryableSteps(old(View()).planner.runs[id])|
                && storedSteps == |S.RetryableRows(old(View()).store, id)|
    {
      plannerSteps := planner.RetryFailedSteps(id);
      storedSteps := repo.RetryFailedSteps(id);
    }

    method Cleanup(id: RunId) returns (changed: nat)
      requires Valid()
      modifies repo
      ensures Valid()
      ensures View() == old(View()).(store := S.CompleteCleanup(old(View()).store, id))
    {
      changed := repo.MarkCleanupComplete(id);
    }

    method PauseRuns(ids: seq<RunId>)
      requires Valid()
      modifies planner.Objects()
      ensures Valid()
      ensures View() == old(View()).(planner := PauseIn(old(View()).planner, ids))
    {
      var changed := planner.PauseRuns(ids);
    }

    method ResumeRuns(ids: seq<RunId>)
      requires Valid()
      modifies planner.Objects()
      ensures Valid()
      ensures View() == old(View()).(planner := ResumeIn(old(View()).planner, ids))
    {
      var changed := planner.ResumeRuns(ids);
    }
  }
}
