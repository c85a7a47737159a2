/** The in-memory planner: runs and their step states, updated in place. Each method is
    proved against the corresponding function of PlannerModel.dfy. */
module Planner {
  import opened Prelude
  import opened Graphs
  import opened Scenarios
  import opened RunModel
  import opened PlannerModel

  lemma EveryKeyListed<T>(ids: seq<T>, keys: set<T>)
    requires Elements(ids) == keys
    ensures forall k :: k in keys ==> exists j :: 0 <= j < |ids| && ids[j] == k
  {
    forall k | k in keys
      ensures exists j :: 0 <= j < |ids| && ids[j] == k
    {
      assert k in Elements(ids);
    }
  }

  /** Two tables over the listed keys are equal if they agree at every position. */
  lemma TablesAgree<K, V>(ids: seq<K>, t: map<K, V>, t': map<K, V>)
    requires Elements(ids) == t.Keys == t'.Keys
    requires forall j :: 0 <= j < |ids| && ids[j] in t && ids[j] in t' ==> t[ids[j]] == t'[ids[j]]
    ensures t == t'
  {
    EveryKeyListed(ids, t.Keys);
  }

  // ---- What the counting loops count ----

  function RetryFlags(steps: map<StepId, StepState>, ids: seq<StepId>): seq<bool> {
    seq(|ids|, i requires 0 <= i < |ids| => ids[i] in steps && steps[ids[i]].status.Retryable())
  }

  lemma RetryFlagsCounted(r: RunView, ids: seq<StepId>)
    requires NoDuplicates(ids) && Elements(ids) == r.steps.Keys
    ensures CountTrue(RetryFlags(r.steps, ids), |ids|) == |RetryableSteps(r)|
  {
    var flags := RetryFlags(r.steps, ids);
    EveryKeyListed(ids, r.steps.Keys);
    forall k
      ensures k in RetryableSteps(r) <==> exists j :: 0 <= j < |ids| && flags[j] && ids[j] == k
    {
      if k in RetryableSteps(r) {
        var j :| 0 <= j < |ids| && ids[j] == k;
        assert flags[j];
      }
    }
    FlaggedCount(ids, flags, |ids|, RetryableSteps(r));
  }

  function ActiveRuns(p: PlannerView): set<RunId> {
    set id | id in p.runs && p.runs[id].status == Active
  }

  /** Which runs, in insertion order, are active. */
  function ActiveFlags(p: PlannerView): seq<bool> {
    seq(|p.order|, i requires 0 <= i < |p.order| => p.order[i] in p.runs && p.runs[p.order[i]].status == Active)
  }

  lemma ActiveFlagsCounted(p: PlannerView)
    requires NoDuplicates(p.order) && Elements(p.order) == p.runs.Keys
    ensures CountTrue(ActiveFlags(p), |p.order|) == |ActiveRuns(p)|
  {
    var flags := ActiveFlags(p);
    EveryKeyListed(p.order, p.runs.Keys);
    forall id
      ensures id in ActiveRuns(p) <==> exists j :: 0 <= j < |p.order| && flags[j] && p.order[j] == id
    {
      if id in ActiveRuns(p) {
        var j :| 0 <= j < |p.order| && p.order[j] == id;
        assert flags[j];
      }
    }
    FlaggedCount(p.order, flags, |p.order|, ActiveRuns(p));
  }

  /** The run is in the table, serves the platform and has a ready step. */
  predicate HasWork(runs: map<RunId, RunView>, id: RunId, platform: string) {
    id in runs && Serves(runs[id], platform) && ReadyStep(runs[id]).Some?
  }

  lemma {:induction false} FirstTaskAt(runs: map<RunId, RunView>, order: seq<RunId>, from: nat, i: nat, platform: string)
    requires from <= i <= |order|
    requires forall j :: from <= j < i ==> !HasWork(runs, order[j], platform)
    requires i < |order| ==> HasWork(runs, order[i], platform)
    ensures FirstTask(runs, order, from, platform) ==
            if i == |order| then None else Some((order[i], ReadyStep(runs[order[i]]).value))
    decreases i - from
  {
    if from < i {
      FirstTaskAt(runs, order, from + 1, i, platform);
    }
  }

  lemma AppendedOrder(order: seq<RunId>, keys: set<RunId>, id: RunId)
    requires NoDuplicates(order) && Elements(order) == keys
    ensures id in order <==> id in keys
    ensures id !in keys ==> NoDuplicates(order + [id]) && Elements(order + [id]) == keys + {id}
  {
    assert id in order <==> id in Elements(order);
  }

  /** One execution of a scenario. */
  class Run {
    const id: RunId
    const scenario: Scenario
    const startedAt: Time
    var finishedAt: Time
    var status: RunStatus
    var steps: map<StepId, StepState>

    ghost function View(): RunView
      reads this
    {
      RunView(id, scenario, startedAt, finishedAt, status, steps)
    }

    /** The step table is keyed by the scenario's step ids, in whose order it is visited. */
    ghost predicate Valid()
      reads this
    {
      UniqueIds(scenario.steps) && steps.Keys == Elements(StepIds(scenario.steps))
    }

    constructor (id: RunId, scenario: Scenario, now: Time)
      requires UniqueIds(scenario.steps)
      ensures Valid() && View() == Started(id, scenario, now)
    {
      this.id, this.scenario, startedAt, finishedAt := id, scenario, now, 0.0;
      status, steps := Active, FreshSteps(scenario.steps);
    }

    predicate IsStepReady(k: StepId)
      requires k in steps
      reads this
      ensures IsStepReady(k) == View().StepReady(k)
    {
      && steps[k].status.Queued?
      && forall d :: d in steps[k].step.dependsOn ==>
           && d in steps
           && !(steps[d].status.Failed? && steps[k].step.abortOnFail)
           && steps[d].status.Satisfied()
    }

    predicate AllTerminal()
      reads this
      ensures AllTerminal() == View().AllTerminal()
    {
      forall k :: k in steps ==> steps[k].status.Terminal()
    }

    predicate HasFailure()
      reads this
      ensures HasFailure() == View().HasFailure()
    {
      exists k :: k in steps && steps[k].status.Failed?
    }

    /** Requeues the retryable steps and counts them. */
    method RetrySteps() returns (changed: nat)
      requires Valid()
      modifies this
      ensures Valid() && View() == RetryRun(old(View()))
      ensures changed == |RetryableSteps(old(View()))|
    {
      var ids := StepIds(scenario.steps);
      EveryKeyListed(ids, steps.Keys);
      assert forall j :: 0 <= j < |ids| ==> ids[j] in Elements(ids);
      RetryFlagsCounted(View(), ids);
      changed := RequeueRetryable(ids, RetryFlags(steps, ids));
      TablesAgree(ids, steps, RetriedSteps(old(View())));
      if changed != 0 {
        status, finishedAt := Active, 0.0;
      }
    }

    method RequeueRetryable(ids: seq<StepId>, ghost flags: seq<bool>) returns (changed: nat)
      requires NoDuplicates(ids) && |flags| == |ids|
      requires forall j :: 0 <= j < |ids| ==> ids[j] in steps && flags[j] == steps[ids[j]].status.Retryable()
      modifies this`steps
      ensures steps.Keys == old(steps).Keys
      ensures forall j :: 0 <= j < |ids| ==> steps[ids[j]] == RetryStep(old(steps)[ids[j]])
      ensures changed == CountTrue(flags, |ids|)
    {
      changed := 0;
      ghost var was := steps;
      for i := 0 to |ids|
        invariant steps.Keys == was.Keys
        invariant forall j :: 0 <= j < i ==> steps[ids[j]] == RetryStep(was[ids[j]])
        invariant forall j :: i <= j < |ids| ==> steps[ids[j]] == was[ids[j]]
        invariant changed == CountTrue(flags, i)
      {
        if steps[ids[i]].status.Retryable() {
          steps := steps[ids[i] := FreshStep(steps[ids[i]].step)];
          changed := changed + 1;
        }
      }
    }

    /** The first ready step, in table order. */
    method FindReady() returns (k: Option<StepId>)
      requires Valid()
      ensures k == ReadyStep(View())
    {
      var ids := StepIds(scenario.steps);
      for j := 0 to |ids|
        invariant ReadyStep(View()) == FirstReadyStep(View(), ids, j)
      {
        assert ids[j] in Elements(ids);
        if IsStepReady(ids[j]) {
          return Some(ids[j]);
        }
      }
      return None;
    }

    method MarkDispatched(k: StepId, agent: string, now: Time)
      requires Valid() && k in steps
      modifies this`steps
      ensures Valid() && View() == DispatchStep(old(View()), k, agent, now)
    {
      steps := steps[k := steps[k].(status := Dispatched, assignedAgent := Some(agent), startedAt := now)];
    }

    /** Cascades a failure: whatever still waits is skipped. */
    method SkipQueued()
      requires Valid()
      modifies this`steps
      ensures Valid() && View() == CascadeSkips(old(View()))
    {
      var ids := StepIds(scenario.steps);
      for i := 0 to |ids|
        invariant steps.Keys == old(steps).Keys
        invariant forall j :: 0 <= j < |ids| ==>
                    steps[ids[j]] == if j < i then SkipStep(old(steps)[ids[j]]) else old(steps)[ids[j]]
      {
        assert ids[i] in Elements(ids);
        if steps[ids[i]].status.Queued? {
          steps := steps[ids[i] := steps[ids[i]].(status := Skipped)];
        }
      }
      EveryKeyListed(ids, steps.Keys);
      assert steps == CascadeSkips(old(View())).steps;
    }

    method AbortIfActive(reason: string, now: Time) returns (done: bool)
      requires Valid()
      modifies this
      ensures Valid() && View() == AbortRun(old(View()), reason, now)
      ensures done == old(status).Active?
    {
      done := status.Active?;
      if done {
        Abort(reason, now);
      }
    }

    method Abort(reason: string, now: Time)
      requires Valid() && status.Active?
      modifies this
      ensures Valid() && View() == AbortRun(old(View()), reason, now)
    {
      status, finishedAt := RunAborted, now;
      var ids := StepIds(scenario.steps);
      for i := 0 to |ids|
        invariant steps.Keys == old(steps).Keys && status == RunAborted && finishedAt == now
        invariant forall j :: 0 <= j < |ids| ==>
                    steps[ids[j]] == if j < i then AbortStep(old(steps)[ids[j]], reason, now) else old(steps)[ids[j]]
      {
        assert ids[i] in Elements(ids);
        var s := steps[ids[i]];
        if s.status.Queued? || s.status.Dispatched? || s.status.Running? {
          steps := steps[ids[i] := s.(status := Aborted, error := Some(reason), finishedAt := now)];
        }
      }
      EveryKeyListed(ids, steps.Keys);
      assert steps == AbortRun(old(View()), reason, now).steps;
    }

    method Record(k: StepId, ok: bool, output: string, error: Option<string>, now: Time)
      requires Valid() && k in steps
      modifies this
      ensures Valid() && View() == ReportStep(old(View()), k, ok, output, error, now)
    {
      steps := steps[k := steps[k].(
        status := if ok then Success else Failed, output := output, error := error, finishedAt := now)];
      if !ok && steps[k].step.abortOnFail {
        SkipQueued();
      }
      if AllTerminal() {
        status := if HasFailure() then RunFailed else Completed;
        finishedAt := now;
      }
    }
  }

  class Planner {
    var runs: map<RunId, Run>
    var order: seq<RunId>

    ghost function Objects(): set<Run>
      reads this
    {
      set id | id in runs :: runs[id]
    }

    ghost predicate Valid()
      reads this, Objects()
    {
      && NoDuplicates(order) && Elements(order) == runs.Keys
      && (forall id :: id in runs ==> runs[id].id == id && runs[id].Valid())
    }

    ghost function View(): PlannerView
      reads this, Objects()
    {
      PlannerView(order, map id | id in runs :: runs[id].View())
    }

    /** Runs are told apart by their ids. */
    lemma DistinctRuns()
      requires Valid()
      ensures forall i, j :: i in runs && j in runs && i != j ==> runs[i] != runs[j]
    {
    }

    twostate lemma OneRunChanged(id: RunId)
      requires runs == old(runs) && order == old(order) && id in runs
      requires forall i :: i in runs && i != id ==> runs[i].View() == old(runs[i].View())
      ensures View() == old(View()).(runs := old(View()).runs[id := runs[id].View()])
    {
      assert View().runs == old(View()).runs[id := runs[id].View()];
    }

    twostate lemma EachRunChanged(v: map<RunId, RunView>)
      requires runs == old(runs) && order == old(order) && v.Keys == runs.Keys
      requires forall i :: i in runs ==> runs[i].View() == v[i]
      ensures View() == old(View()).(runs := v)
    {
      assert View().runs == v;
    }

    constructor ()
      ensures Valid() && View() == EmptyPlanner && runs == map[]
    {
      runs, order := map[], [];
    }

    method StartRun(id: RunId, scenario: Scenario, now: Time) returns (r: DagCheck)
      requires Valid() && UniqueIds(scenario.steps)
      modifies this
      ensures Valid() && View() == if r.DagOk? then AddRun(old(View()), id, scenario, now) else old(View())
      ensures r.DagOk? <==> ValidDag(scenario.steps)
      ensures r.DagOk? ==> id in runs && fresh(runs[id]) && runs == old(runs)[id := runs[id]]
      ensures !r.DagOk? ==> runs == old(runs)
    {
      r := Validated(scenario);
      if r.DagOk? {
        AddNewRun(id, scenario, now);
      }
    }

    /** Validation leaves the planner alone. */
    method Validated(scenario: Scenario) returns (r: DagCheck)
      requires Valid() && UniqueIds(scenario.steps)
      ensures Valid() && View() == old(View())
      ensures r.DagOk? <==> ValidDag(scenario.steps)
    {
      ghost var before, ordered := View(), [];
      r, ordered := ValidateDag(scenario);
      ViewStays(before);
    }

    method AddNewRun(id: RunId, scenario: Scenario, now: Time)
      requires Valid() && UniqueIds(scenario.steps)
      modifies this
      ensures Valid() && View() == AddRun(old(View()), id, scenario, now)
      ensures id in runs && fresh(runs[id]) && runs == old(runs)[id := runs[id]]
    {
      ghost var before := View();
      var run := new Run(id, scenario, now);
      Insert(run);
      RunInserted(before, run);
    }

    /** Creating an object leaves the planner's value alone. */
    lemma ViewStays(before: PlannerView)
      requires order == before.order && runs.Keys == before.runs.Keys
      requires forall i :: i in runs ==> runs[i].View() == before.runs[i]
      ensures View() == before
    {
      assert View().runs == before.runs;
    }

    /** Stores a run under its id; the dictionary keeps the position of a known id. */
    method Insert(run: Run)
      requires Valid() && run.Valid()
      modifies this
      ensures Valid() && runs == old(runs)[run.id := run]
      ensures order == if run.id in old(order) then old(order) else old(order) + [run.id]
    {
      AppendedOrder(order, runs.Keys, run.id);
      if run.id !in runs {
        order := order + [run.id];
      }
      runs := runs[run.id := run];
    }

    lemma RunInserted(before: PlannerView, run: Run)
      requires run.id in runs && runs[run.id] == run && runs.Keys == before.runs.Keys + {run.id}
      requires forall i :: i in runs && i != run.id ==> runs[i].View() == before.runs[i]
      ensures View().runs == before.runs[run.id := run.View()]
    {
    }

    method PauseRuns(ids: seq<RunId>) returns (changed: nat)
      requires Valid()
      modifies Objects()`status
      ensures Valid() && View() == PauseIn(old(View()), ids)
      ensures changed == |set r | r in Objects() && r.id in ids && old(r.status) == Active|
    {
      changed := Switch(ids, Active, Paused, set r | r in Objects() && r.id in ids && r.status == Active);
      EachRunChanged(PauseIn(old(View()), ids).runs);
    }

    method ResumeRuns(ids: seq<RunId>) returns (changed: nat)
      requires Valid()
      modifies Objects()`status
      ensures Valid() && View() == ResumeIn(old(View()), ids)
      ensures changed == |set r | r in Objects() && r.id in ids && old(r.status) == Paused|
    {
      changed := Switch(ids, Paused, Active, set r | r in Objects() && r.id in ids && r.status == Paused);
      EachRunChanged(ResumeIn(old(View()), ids).runs);
    }

    /** The loop shared by pausing and resuming: moves the listed runs from one status to
        another. `hit` is the set of runs to be moved. */
    method Switch(ids: seq<RunId>, from: RunStatus, to: RunStatus, ghost hit: set<Run>) returns (changed: nat)
      requires Valid() && from != to
      requires forall r :: r in hit <==> r in Objects() && r.id in ids && r.status == from
      modifies Objects()`status
      ensures forall r :: r in Objects() ==> r.status == if r in hit then to else old(r.status)
      ensures changed == |hit|
    {
      changed := 0;
      DistinctRuns();
      ghost var todo := hit;
      for i := 0 to |ids|
        invariant forall r :: r in Objects() ==> r.status == if r in hit && r !in todo then to else old(r.status)
        invariant todo <= hit && forall j :: 0 <= j < i && ids[j] in runs ==> runs[ids[j]] !in todo
        invariant changed + |todo| == |hit|
      {
        if ids[i] in runs && runs[ids[i]].status == from {
          var run := runs[ids[i]];
          run.status := to;
          changed := changed + 1;
          todo := todo - {run};
        }
      }
      assert todo == {};
    }

    method RetryFailedSteps(id: RunId) returns (changed: nat)
      requires Valid()
      modifies Objects()
      ensures Valid() && View() == RetryIn(old(View()), id)
      ensures changed == if id in runs then |RetryableSteps(old(runs[id].View()))| else 0
    {
      changed := 0;
      if id in runs {
        DistinctRuns();
        changed := runs[id].RetrySteps();
        OneRunChanged(id);
      }
    }

    /** Looks for the next ready step, run by run and step by step; returns the position
        of the run as well. */
    method FindTask(platform: string) returns (i: nat, k: Option<StepId>)
      requires Valid()
      ensures i <= |order| && (k.None? <==> i == |order|)
      ensures forall j :: 0 <= j < i ==> !HasWork(View().runs, order[j], platform)
      ensures k.Some? ==> HasWork(View().runs, order[i], platform) && k == ReadyStep(View().runs[order[i]])
    {
      ghost var views := View().runs;
      i := 0;
      while i < |order|
        invariant i <= |order|
        invariant forall j :: 0 <= j < i ==> !HasWork(views, order[j], platform)
      {
        assert order[i] in Elements(order);
        var run := runs[order[i]];
        assert views[order[i]] == run.View();
        if run.status.Active? && ("any" in run.scenario.targetPlatforms || platform in run.scenario.targetPlatforms) {
          k := run.FindReady();
          if k.Some? {
            return i, k;
          }
        }
        i := i + 1;
      }
      return i, None;
    }

    /** Hands the next ready step to this agent, or nothing. */
    method NextTaskForAgent(agent: string, agentPlatform: string, now: Time) returns (t: Option<(Run, StepId)>)
      requires Valid()
      modifies Objects()
      ensures Valid() && View() == NextIn(old(View()), agent, agentPlatform, now)
      ensures t.None? ==> Task(old(View()), agentPlatform).None?
      ensures t.Some? ==>
                && t.value.0.id in runs && t.value.0 == runs[t.value.0.id]
                && Task(old(View()), agentPlatform) == Some((t.value.0.id, t.value.1))
    {
      var platform := Lower(agentPlatform);
      var i, k := FindTask(platform);
      FirstTaskAt(View().runs, order, 0, i, platform);
      if k.None? {
        return None;
      }
      DistinctRuns();
      assert order[i] in Elements(order);
      var run := runs[order[i]];
      run.MarkDispatched(k.value, agent, now);
      OneRunChanged(run.id);
      return Some((run, k.value));
    }

    method ReportResult(runId: RunId, stepId: StepId, ok: bool, output: string, error: Option<string>, now: Time)
      requires Valid()
      modifies Objects()
      ensures Valid() && View() == ReportIn(old(View()), runId, stepId, ok, output, error, now)
    {
      if runId in runs && stepId in runs[runId].steps {
        DistinctRuns();
        runs[runId].Record(stepId, ok, output, error, now);
        OneRunChanged(runId);
      }
    }

    method AbortAll(reason: string, now: Time) returns (n: nat)
      requires Valid()
      modifies Objects()
      ensures Valid() && View() == AbortIn(old(View()), reason, now)
      ensures n == |ActiveRuns(old(View()))|
    {
      ghost var before := View();
      FlagsMatch();
      var listed := Listed();
      n := AbortEach(listed, reason, now, ActiveFlags(before));
      EachRunListed(listed);
      EachRunChanged(AbortIn(before, reason, now).runs);
      ActiveFlagsCounted(before);
    }

    /** The runs in insertion order. */
    function Listed(): (s: seq<Run>)
      requires Valid()
      reads this, Objects()
      ensures |s| == |order| && NoDuplicates(s)
      ensures forall j :: 0 <= j < |order| ==> order[j] in runs && s[j] == runs[order[j]]
    {
      assert forall j :: 0 <= j < |order| ==> order[j] in Elements(order);
      seq(|order|, j requires 0 <= j < |order| && order[j] in runs reads this => runs[order[j]])
    }

    lemma EachRunListed(s: seq<Run>)
      requires Elements(order) == runs.Keys && |s| == |order|
      requires forall j :: 0 <= j < |order| ==> order[j] in runs && s[j] == runs[order[j]]
      ensures forall i :: i in runs ==> runs[i] in s
    {
      EveryKeyListed(order, runs.Keys);
      forall i | i in runs ensures runs[i] in s {
        var j :| 0 <= j < |order| && order[j] == i;
        assert s[j] == runs[i];
      }
    }

    lemma FlagsMatch()
      requires Valid()
      ensures var flags := ActiveFlags(View());
              |flags| == |order|
              && forall j :: 0 <= j < |order| ==> order[j] in runs && flags[j] == (runs[order[j]].status == Active)
    {
      assert forall j :: 0 <= j < |order| ==> order[j] in Elements(order);
    }
  }

  /** The loop of an abort: ends the active ones of the listed runs and counts them. */
  method AbortEach(listed: seq<Run>, reason: string, now: Time, ghost active: seq<bool>) returns (n: nat)
    requires NoDuplicates(listed) && |active| == |listed|
    requires forall j :: 0 <= j < |listed| ==> listed[j].Valid() && active[j] == listed[j].status.Active?
    modifies listed
    ensures forall j :: 0 <= j < |listed| ==> listed[j].Valid() && listed[j].View() == AbortRun(old(listed[j].View()), reason, now)
    ensures n == CountTrue(active, |listed|)
  {
    n := 0;
    for i := 0 to |listed|
      invariant forall j :: 0 <= j < i ==> listed[j].Valid() && listed[j].View() == AbortRun(old(listed[j].View()), reason, now)
      invariant forall j :: i <= j < |listed| ==> listed[j].Valid() && listed[j].View() == old(listed[j].View())
      invariant n == CountTrue(active, i)
    {
      var done := listed[i].AbortIfActive(reason, now);
      if done {
        n := n + 1;
      }
    }
  }
}
