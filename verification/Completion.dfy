/** Total correctness of driving runs with an agent that always succeeds. */
module Completion {
  import opened Prelude
  import opened Graphs
  import opened Scenarios
  import opened RunModel
  import opened RunProperties
  import opened PlannerModel

  function QueuedPairs(p: PlannerView): set<(RunId, StepId)> {
    set id, k | id in p.runs && k in p.runs[id].steps && p.runs[id].steps[k].status.Queued? :: (id, k)
  }

  function SettleStep(r: RunView, k: StepId, agent: string, now: Time): RunView
    requires k in r.steps
  {
    ReportStep(DispatchStep(r, k, agent, now), k, true, "", None, now)
  }

  function WithRun(p: PlannerView, id: RunId, r: RunView): PlannerView {
    p.(runs := p.runs[id := r])
  }

  /** One exchange: the agent receives the next task and reports success. */
  function Exchange(p: PlannerView, platform: string, agent: string, now: Time): PlannerView
    requires Task(p, platform).Some?
  {
    var (id, k) := Task(p, platform).value;
    WithRun(p, id, SettleStep(p.runs[id], k, agent, now))
  }

  lemma ExchangeIsTwoEvents(p: PlannerView, platform: string, agent: string, now: Time)
    requires Task(p, platform).Some?
    ensures var (id, k) := Task(p, platform).value;
            Exchange(p, platform, agent, now) ==
            Apply(Apply(p, NextTask(agent, platform, now)), Report(id, k, true, "", None, now))
  {
    var (id, k) := Task(p, platform).value;
    assert Apply(Apply(p, NextTask(agent, platform, now)), Report(id, k, true, "", None, now)).runs
        == Exchange(p, platform, agent, now).runs;
  }

  lemma ExchangeSettles(p: PlannerView, platform: string, agent: string, now: Time)
    requires Task(p, platform).Some?
    ensures var (id, k) := Task(p, platform).value;
            QueuedPairs(Exchange(p, platform, agent, now)) == QueuedPairs(p) - {(id, k)} && (id, k) in QueuedPairs(p)
  {
    var (id, k) := Task(p, platform).value;
    var r, r' := p.runs[id], SettleStep(p.runs[id], k, agent, now);
    forall i, j
      ensures (i, j) in QueuedPairs(WithRun(p, id, r')) <==> (i, j) in QueuedPairs(p) && (i, j) != (id, k)
    {
      if i == id && j in r.steps && j != k {
        assert r'.steps[j] == r.steps[j];
      }
    }
  }

  /** The planner after exchanges until no task is left, and how many there were. */
  function Drive(p: PlannerView, platform: string, agent: string, now: Time): (PlannerView, nat)
    decreases |QueuedPairs(p)|
  {
    if Task(p, platform).None? then (p, 0)
    else
      ExchangeSettles(p, platform, agent, now);
      var (q, n) := Drive(Exchange(p, platform, agent, now), platform, agent, now);
      (q, n + 1)
  }

  /** Nothing is outstanding and nothing has failed. */
  ghost predicate Calm(r: RunView) {
    forall k :: k in r.steps ==> !Blocks(r, k)
  }

  ghost predicate AllSucceeded(r: RunView) {
    r.status.Completed? && forall k :: k in r.steps ==> r.steps[k].status.Success?
  }

  /** Where driving has to lead. */
  ghost predicate Driven(r: RunView, r': RunView, platform: string) {
    && r'.steps.Keys == r.steps.Keys
    && (Serves(r, platform) && r.steps != map[] ==> AllSucceeded(r'))
    && (!Serves(r, platform) ==> r' == r)
  }

  lemma SettleKeepsRun(r: RunView, k: StepId, agent: string, now: Time)
    requires RunInv(r) && r.status.Active? && k in r.steps && r.StepReady(k) && now > 0.0
    ensures RunInv(SettleStep(r, k, agent, now))
  {
    DispatchKeeps(r, k, agent, now);
    ReportKeeps(DispatchStep(r, k, agent, now), k, true, "", None, now);
  }

  lemma SettleKeepsCalm(r: RunView, k: StepId, agent: string, now: Time)
    requires QueueOrDiscard(r) && NeverRunning(r) && r.status.Active? && Calm(r)
    requires k in r.steps && r.steps[k].status.Queued?
    ensures var r' := SettleStep(r, k, agent, now);
            && Calm(r') && r'.scenario == r.scenario && r'.steps.Keys == r.steps.Keys
            && (r'.status.Active? || AllSucceeded(r'))
  {
    var r' := SettleStep(r, k, agent, now);
    forall j | j in r'.steps
      ensures r'.steps[j].status.Queued? || r'.steps[j].status.Success?
    {
      assert j in r.steps && !Blocks(r, j);
    }
  }

  ghost predicate Drivable(p: PlannerView, platform: string) {
    PlannerInv(p) && forall id :: id in p.runs && Serves(p.runs[id], platform) ==> Calm(p.runs[id])
  }

  ghost predicate AllDriven(p: PlannerView, q: PlannerView, platform: string) {
    q.runs.Keys == p.runs.Keys && forall id :: id in p.runs ==> Driven(p.runs[id], q.runs[id], platform)
  }

  lemma IdleIsDriven(p: PlannerView, platform: string)
    requires Drivable(p, Lower(platform)) && Task(p, platform).None?
    ensures AllDriven(p, p, Lower(platform))
  {
    if id :| id in p.runs && Serves(p.runs[id], Lower(platform)) && p.runs[id].steps != map[] {
      assert id in Elements(p.order);
      var r := p.runs[id];
      NoReadyStep(r);
      var k := ActiveRunAdvances(r);
      assert false;
    }
  }

  lemma ReplaceKeepsDrivable(p: PlannerView, platform: string, id: RunId, r: RunView)
    requires Drivable(p, platform) && id in p.runs && RunInv(r) && Calm(r)
    ensures Drivable(WithRun(p, id, r), platform)
  {
    assert WithRun(p, id, r).runs.Keys == p.runs.Keys;
  }

  lemma ReplaceThenDriven(p: PlannerView, q: PlannerView, platform: string, id: RunId, r: RunView)
    requires id in p.runs && Serves(p.runs[id], platform)
    requires r.scenario == p.runs[id].scenario && r.steps.Keys == p.runs[id].steps.Keys
    requires r.status.Active? || AllSucceeded(r)
    requires AllDriven(WithRun(p, id, r), q, platform)
    ensures AllDriven(p, q, platform)
  {
    var p' := WithRun(p, id, r);
    assert p'.runs.Keys == p.runs.Keys;
    forall i | i in p.runs
      ensures Driven(p.runs[i], q.runs[i], platform)
    {
      assert Driven(p'.runs[i], q.runs[i], platform);
      if i == id && p.runs[i].steps != map[] {
        assert p.runs[i].steps.Keys != {};
      }
    }
  }

  lemma ExchangeStaysDrivable(p: PlannerView, platform: string, agent: string, now: Time)
    requires Drivable(p, Lower(platform)) && Task(p, platform).Some? && now > 0.0
    ensures Drivable(Exchange(p, platform, agent, now), Lower(platform))
  {
    var (id, k) := Task(p, platform).value;
    SettleKeepsRun(p.runs[id], k, agent, now);
    SettleKeepsCalm(p.runs[id], k, agent, now);
    ReplaceKeepsDrivable(p, Lower(platform), id, SettleStep(p.runs[id], k, agent, now));
  }

  lemma ExchangeThenDriven(p: PlannerView, q: PlannerView, platform: string, agent: string, now: Time)
    requires Drivable(p, Lower(platform)) && Task(p, platform).Some?
    requires AllDriven(Exchange(p, platform, agent, now), q, Lower(platform))
    ensures AllDriven(p, q, Lower(platform))
  {
    var (id, k) := Task(p, platform).value;
    SettleKeepsCalm(p.runs[id], k, agent, now);
    ReplaceThenDriven(p, q, Lower(platform), id, SettleStep(p.runs[id], k, agent, now));
  }

  /** The number of hand-outs is the number of steps settled. */
  lemma {:induction false} DriveCounts(p: PlannerView, platform: string, agent: string, now: Time)
    ensures var (q, n) := Drive(p, platform, agent, now); n + |QueuedPairs(q)| == |QueuedPairs(p)|
    decreases |QueuedPairs(p)|
  {
    if Task(p, platform).Some? {
      ExchangeSettles(p, platform, agent, now);
      DriveCounts(Exchange(p, platform, agent, now), platform, agent, now);
    }
  }

  lemma ExchangeThenAnyDriven(p: PlannerView, platform: string, agent: string, now: Time)
    requires Drivable(p, Lower(platform)) && Task(p, platform).Some?
    ensures forall q :: AllDriven(Exchange(p, platform, agent, now), q, Lower(platform)) ==> AllDriven(p, q, Lower(platform))
  {
    forall q | AllDriven(Exchange(p, platform, agent, now), q, Lower(platform))
      ensures AllDriven(p, q, Lower(platform))
    {
      ExchangeThenDriven(p, q, platform, agent, now);
    }
  }

  lemma ExchangeShrinks(p: PlannerView, platform: string, agent: string, now: Time)
    requires Task(p, platform).Some?
    ensures |QueuedPairs(Exchange(p, platform, agent, now))| < |QueuedPairs(p)|
    ensures Drive(Exchange(p, platform, agent, now), platform, agent, now).0 == Drive(p, platform, agent, now).0
  {
    ExchangeSettles(p, platform, agent, now);
  }

  /** One exchange brings the planner closer to where driving leads. */
  lemma ExchangeAdvances(p: PlannerView, platform: string, agent: string, now: Time) returns (p': PlannerView)
    requires Drivable(p, Lower(platform)) && Task(p, platform).Some? && now > 0.0
    ensures Drivable(p', Lower(platform)) && |QueuedPairs(p')| < |QueuedPairs(p)|
    ensures Drive(p', platform, agent, now).0 == Drive(p, platform, agent, now).0
    ensures forall q :: AllDriven(p', q, Lower(platform)) ==> AllDriven(p, q, Lower(platform))
  {
    ExchangeShrinks(p, platform, agent, now);
    ExchangeStaysDrivable(p, platform, agent, now);
    ExchangeThenAnyDriven(p, platform, agent, now);
    p' := Exchange(p, platform, agent, now);
  }

  /** Every run the agent may serve ends completed with all steps successful, and the
      other runs are untouched. */
  lemma {:induction false} DriveCompletes(p: PlannerView, platform: string, agent: string, now: Time)
    requires Drivable(p, Lower(platform)) && now > 0.0
    ensures AllDriven(p, Drive(p, platform, agent, now).0, Lower(platform))
    decreases |QueuedPairs(p)|
  {
    if Task(p, platform).None? {
      IdleIsDriven(p, platform);
    } else {
      var p' := ExchangeAdvances(p, platform, agent, now);
      DriveCompletes(p', platform, agent, now);
    }
  }

  function OneRun(id: RunId, r: RunView): PlannerView {
    PlannerView([id], map[id := r])
  }

  lemma StartAlone(id: RunId, scenario: Scenario, now: Time)
    requires ValidDag(scenario.steps)
    ensures Apply(EmptyPlanner, StartRun(id, scenario, now)) == OneRun(id, Started(id, scenario, now))
  {
  }

  lemma LoneRunIsDrivable(id: RunId, r: RunView, platform: string)
    requires RunInv(r) && Calm(r)
    ensures Drivable(OneRun(id, r), platform)
  {
    assert OneRun(id, r).runs.Keys == {id};
  }

  lemma FreshRunIsCalm(id: RunId, scenario: Scenario, now: Time)
    requires UniqueIds(scenario.steps)
    ensures Calm(Started(id, scenario, now))
  {
    StartedIsQueued(id, scenario, now);
  }

  lemma FreshStepCount(id: RunId, scenario: Scenario, now: Time)
    requires UniqueIds(scenario.steps)
    ensures |Started(id, scenario, now).steps.Keys| == |scenario.steps|
  {
    var r := Started(id, scenario, now);
    StartedIsQueued(id, scenario, now);
    assert r.steps.Keys == StepTable(r).Keys;
    DistinctCount(StepIds(scenario.steps));
  }

  /** A validated scenario of n steps, started alone, ends completed after exactly n hand-outs. */
  lemma DriveFreshScenario(id: RunId, scenario: Scenario, platform: string, agent: string, now: Time)
    requires ValidDag(scenario.steps) && scenario.steps != [] && now > 0.0
    requires Started(id, scenario, now).Accepts(Lower(platform))
    ensures var (q, n) := Drive(Apply(EmptyPlanner, StartRun(id, scenario, now)), platform, agent, now);
            n == |scenario.steps| && id in q.runs && AllSucceeded(q.runs[id])
  {
    var r := Started(id, scenario, now);
    StartAlone(id, scenario, now);
    StartedKeeps(id, scenario, now);
    FreshRunIsCalm(id, scenario, now);
    LoneRunIsDrivable(id, r, Lower(platform));
    FreshStepCount(id, scenario, now);
    StartedIsQueued(id, scenario, now);
    LoneRunSucceeds(id, r, platform, agent, now);
    LoneRunCount(id, r, platform, agent, now);
  }

  lemma LoneRunSucceeds(id: RunId, r: RunView, platform: string, agent: string, now: Time)
    requires Drivable(OneRun(id, r), Lower(platform)) && Serves(r, Lower(platform)) && now > 0.0
    requires |r.steps.Keys| > 0
    ensures var q := Drive(OneRun(id, r), platform, agent, now).0;
            id in q.runs && AllSucceeded(q.runs[id]) && QueuedPairs(q) == {}
  {
    DriveCompletes(OneRun(id, r), platform, agent, now);
    OnlyRunSucceeded(r, id, Drive(OneRun(id, r), platform, agent, now).0, Lower(platform));
  }

  lemma LoneRunCount(id: RunId, r: RunView, platform: string, agent: string, now: Time)
    requires forall k :: k in r.steps ==> r.steps[k].status.Queued?
    requires QueuedPairs(Drive(OneRun(id, r), platform, agent, now).0) == {}
    ensures Drive(OneRun(id, r), platform, agent, now).1 == |r.steps.Keys|
  {
    DriveCounts(OneRun(id, r), platform, agent, now);
    CountPairs(OneRun(id, r), id);
  }

  lemma OnlyRunSucceeded(r: RunView, id: RunId, q: PlannerView, platform: string)
    requires AllDriven(OneRun(id, r), q, platform) && Serves(r, platform) && |r.steps.Keys| > 0
    ensures id in q.runs && AllSucceeded(q.runs[id]) && QueuedPairs(q) == {}
  {
    assert Driven(OneRun(id, r).runs[id], q.runs[id], platform);
  }

  lemma CountPairs(p: PlannerView, id: RunId)
    requires p.runs.Keys == {id} && forall k :: k in p.runs[id].steps ==> p.runs[id].steps[k].status.Queued?
    ensures |QueuedPairs(p)| == |p.runs[id].steps.Keys|
  {
    var keys := p.runs[id].steps.Keys;
    assert QueuedPairs(p) == set k | k in keys :: (id, k);
    PairCount(id, keys);
  }

  lemma {:induction false} PairCount(id: RunId, keys: set<StepId>)
    ensures |set k | k in keys :: (id, k)| == |keys|
  {
    if k :| k in keys {
      PairCount(id, keys - {k});
      assert (set j | j in keys :: (id, j)) == (set j | j in keys - {k} :: (id, j)) + {(id, k)};
    }
  }
}
