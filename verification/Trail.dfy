/** What the API handlers append to the audit log, and what the log can be relied on for. */
module Trail {
  import opened Prelude
  import opened Scenarios
  import opened RunModel
  import opened PlannerModel
  import opened WorldModel
  import opened Simulation
  import S = StoreModel

  datatype Entry =
    | AgentRegister(agent: string)
    | RunStart(run: RunId, scenario: string)
    | TaskDispatch(agent: string, run: RunId, step: StepId)
    | TaskResult(agent: string, run: RunId, step: StepId, ok: bool, error: Option<string>)
    | KillswitchEngage(reason: string)
    | KillswitchDisengage
    | RetryFailedSteps(run: RunId)
    | CleanupClosed(run: RunId)
    | CampaignPause
    | CampaignResume

  /** The entries that a call appends. A beacon logs a hand-out and nothing else. */
  ghost function Appended(w: World, c: Call): seq<Entry> {
    match c
    case Register(agent) => [AgentRegister(agent)]
    case Launch(id, scenario, _) =>
      if UniqueIds(scenario.steps) && ValidDag(scenario.steps) then [RunStart(id, scenario.name)] else []
    case Beacon(agent, platform, _) =>
      if agent !in w.agents || KillswitchActive(w) || Task(w.planner, platform).None? then []
      else [TaskDispatch(agent, Task(w.planner, platform).value.0, Task(w.planner, platform).value.1)]
    case Result(agent, run, step, ok, _, error, _) =>
      if agent !in w.agents then [] else [TaskResult(agent, run, step, ok, error)]
    case Engage(reason, _) => [KillswitchEngage(reason)]
    case Disengage => [KillswitchDisengage]
    case RetryRun(id) => [RetryFailedSteps(id)]
    case CleanupRun(id) => [CleanupClosed(id)]
    case Pause(_) => [CampaignPause]
    case Resume(_) => [CampaignResume]
    case SetEnvironment(_) => []
  }

  ghost function TrailOf(h: seq<Call>): seq<Entry> {
    if h == [] then [] else TrailOf(h[..|h| - 1]) + Appended(Reached(h[..|h| - 1]), h[|h| - 1])
  }

  /** A beacon finds the kill switch active and active runs to abort. */
  ghost predicate HaltsSilently(w: World, c: Call) {
    && c.Beacon? && c.agent in w.agents && KillswitchActive(w)
    && exists id :: id in w.planner.runs && w.planner.runs[id].status.Active?
  }

  lemma AbortIsVisible(p: PlannerView, reason: string, now: Time)
    ensures AbortIn(p, reason, now) != p <==> exists id :: id in p.runs && p.runs[id].status.Active?
  {
    var p' := AbortIn(p, reason, now);
    if id :| id in p.runs && p.runs[id].status.Active? {
      assert p'.runs[id].status.RunAborted?;
    } else {
      assert p'.runs == p.runs;
    }
  }

  /** Calls that append nothing change neither the store nor the agents, and they change the planner
      exactly when a beacon aborts active runs under the kill switch. */
  lemma UnloggedChanges(w: World, c: Call)
    requires Appended(w, c) == []
    ensures Do(w, c).store == w.store && Do(w, c).agents == w.agents
    ensures Do(w, c).planner != w.planner <==> HaltsSilently(w, c)
  {
    if c.Beacon? && c.agent in w.agents && KillswitchActive(w) {
      AbortIsVisible(w.planner, KillswitchReason(w), c.now);
    }
  }

  // ---- Which status changes of a step the log names ----

  predicate NamesStep(e: Entry, key: S.Key) {
    (e.TaskDispatch? || e.TaskResult?) && (e.run, e.step) == key
  }

  /** A result by a known agent for this step. */
  predicate OwnResult(w: World, c: Call, key: S.Key) {
    c.Result? && c.agent in w.agents && (c.run, c.step) == key
  }

  /** Another step of the run fails with abort_on_fail while this one waits. */
  predicate Cascaded(w: World, c: Call, key: S.Key) {
    && c.Result? && c.agent in w.agents && c.run == key.0 && c.step != key.1 && !c.ok
    && HasStep(w.planner, key) && Planned(w.planner, key).Queued?
    && HasStep(w.planner, (c.run, c.step)) && w.planner.runs[c.run].steps[c.step].step.abortOnFail
  }

  predicate Requeued(w: World, c: Call, key: S.Key) {
    c == RetryRun(key.0) && HasStep(w.planner, key) && Planned(w.planner, key).Retryable()
  }

  /** The kill switch, engaged by this call or met by this beacon, ends the unfinished step of an active run. */
  predicate Stopped(w: World, c: Call, key: S.Key) {
    && (c.Engage? || (c.Beacon? && c.agent in w.agents && KillswitchActive(w)))
    && HasStep(w.planner, key) && w.planner.runs[key.0].status.Active? && !Planned(w.planner, key).Terminal()
  }

  /** Exactly hand-outs and own results have an entry that names the step. */
  lemma NamedIff(w: World, c: Call, key: S.Key)
    ensures (exists i :: 0 <= i < |Appended(w, c)| && NamesStep(Appended(w, c)[i], key)) <==>
            CallHandsOut(w, c, key) || OwnResult(w, c, key)
  {
    if CallHandsOut(w, c, key) || OwnResult(w, c, key) {
      assert NamesStep(Appended(w, c)[0], key);
    }
  }

  /** What a call makes of a step. */
  ghost function StatusAfter(w: World, c: Call, key: S.Key): StepStatus
    requires HasStep(w.planner, key)
  {
    if CallHandsOut(w, c, key) then Dispatched
    else if OwnResult(w, c, key) then (if c.ok then Success else Failed)
    else if Cascaded(w, c, key) then Skipped
    else if Requeued(w, c, key) then Queued
    else if Stopped(w, c, key) then Aborted
    else Planned(w.planner, key)
  }

  lemma StepTransition(w: World, c: Call, key: S.Key)
    requires PlausibleCall(w, c) && HasStep(w.planner, key)
    ensures HasStep(Do(w, c).planner, key) && Planned(Do(w, c).planner, key) == StatusAfter(w, c, key)
  {
    if c.Result? {
      if c.agent in w.agents { ResultTransition(w, c, key); } else { IgnoredTransition(w, c, key); }
    } else if c.Beacon? {
      if c.agent in w.agents { BeaconTransition(w, c, key); } else { IgnoredTransition(w, c, key); }
    } else if c.Engage? {
      EngageTransition(w, c, key);
    } else if c.RetryRun? {
      RetryTransition(w.planner, c.id, key);
    } else {
      QuietTransition(w, c, key);
    }
  }

  lemma IgnoredTransition(w: World, c: Call, key: S.Key)
    requires HasStep(w.planner, key) && ((c.Result? && c.agent !in w.agents) || (c.Beacon? && c.agent !in w.agents))
    ensures HasStep(Do(w, c).planner, key) && Planned(Do(w, c).planner, key) == StatusAfter(w, c, key)
  {
  }

  lemma BeaconTransition(w: World, c: Call, key: S.Key)
    requires c.Beacon? && c.agent in w.agents && HasStep(w.planner, key)
    ensures HasStep(Do(w, c).planner, key) && Planned(Do(w, c).planner, key) == StatusAfter(w, c, key)
  {
    if KillswitchActive(w) {
      AbortTransition(w.planner, KillswitchReason(w), c.now, key);
    } else if Task(w.planner, c.platform).Some? {
      HandoutTransition(w.planner, c.agent, c.platform, c.now, key);
    }
  }

  lemma EngageTransition(w: World, c: Call, key: S.Key)
    requires c.Engage? && HasStep(w.planner, key)
    ensures HasStep(Do(w, c).planner, key) && Planned(Do(w, c).planner, key) == StatusAfter(w, c, key)
  {
    AbortTransition(w.planner, "killswitch:" + c.reason, c.now, key);
  }

  lemma AbortTransition(p: PlannerView, reason: string, now: Time, key: S.Key)
    requires HasStep(p, key)
    ensures HasStep(AbortIn(p, reason, now), key)
    ensures Planned(AbortIn(p, reason, now), key) ==
            if p.runs[key.0].status.Active? && !Planned(p, key).Terminal() then Aborted else Planned(p, key)
  {
  }

  lemma HandoutTransition(p: PlannerView, agent: string, platform: string, now: Time, key: S.Key)
    requires HasStep(p, key) && Task(p, platform).Some?
    ensures HasStep(NextIn(p, agent, platform, now), key)
    ensures Planned(NextIn(p, agent, platform, now), key) == if Task(p, platform) == Some(key) then Dispatched else Planned(p, key)
  {
  }

  lemma RetryTransition(p: PlannerView, id: RunId, key: S.Key)
    requires HasStep(p, key)
    ensures HasStep(RetryIn(p, id), key)
    ensures Planned(RetryIn(p, id), key) == if key.0 == id && Planned(p, key).Retryable() then Queued else Planned(p, key)
  {
  }

  lemma QuietTransition(w: World, c: Call, key: S.Key)
    requires PlausibleCall(w, c) && HasStep(w.planner, key)
    requires c.Register? || c.Launch? || c.Disengage? || c.CleanupRun? || c.Pause? || c.Resume? || c.SetEnvironment?
    ensures HasStep(Do(w, c).planner, key) && Planned(Do(w, c).planner, key) == Planned(w.planner, key)
  {
  }

  lemma ResultTransition(w: World, c: Call, key: S.Key)
    requires c.Result? && c.agent in w.agents && HasStep(w.planner, key)
    ensures HasStep(Do(w, c).planner, key) && Planned(Do(w, c).planner, key) == StatusAfter(w, c, key)
  {
    if key.0 == c.run && c.step in w.planner.runs[c.run].steps {
      var r := w.planner.runs[c.run];
      var recorded := RecordResult(r, c.step, c.ok, c.output, c.error, c.now);
      assert recorded.steps[key.1].status == if key.1 == c.step then (if c.ok then Success else Failed) else r.steps[key.1].status;
    }
  }

  /** The exact gap: a step changes its status without an entry that names it if and only if it is skipped by
      another step's failure, requeued by a retry of its run, or stopped by the kill switch. */
  lemma UnnamedChangeIff(w: World, c: Call, key: S.Key)
    requires PlausibleCall(w, c) && HasStep(w.planner, key) && !Planned(w.planner, key).Running?
    ensures HasStep(Do(w, c).planner, key)
    ensures (&& Planned(Do(w, c).planner, key) != Planned(w.planner, key)
             && forall i :: 0 <= i < |Appended(w, c)| ==> !NamesStep(Appended(w, c)[i], key)) <==>
            Cascaded(w, c, key) || Requeued(w, c, key) || Stopped(w, c, key)
  {
    StepTransition(w, c, key);
    NamedIff(w, c, key);
  }

  /** What the log holds of such a change: a cascade is an entry about the other step, a retry one about the
      run, an engagement one about the reason, and an abort by a beacon nothing. */
  lemma UnnamedEntries(w: World, c: Call, key: S.Key)
    requires Cascaded(w, c, key) || Requeued(w, c, key) || Stopped(w, c, key)
    ensures Appended(w, c) ==
            if c.Result? then [TaskResult(c.agent, c.run, c.step, c.ok, c.error)]
            else if c.RetryRun? then [RetryFailedSteps(key.0)]
            else if c.Engage? then [KillswitchEngage(c.reason)]
            else []
  {
  }

  /** A run becomes completed or failed only by a result for one of its steps, and the only entry of that
      call is the one about the step: the end of a run has no entry of its own. */
  lemma RunEndsUnlogged(w: World, c: Call, id: RunId)
    requires PlausibleCall(w, c) && id in w.planner.runs && id in Do(w, c).planner.runs
    requires var s := Do(w, c).planner.runs[id].status; s != w.planner.runs[id].status && (s.Completed? || s.RunFailed?)
    ensures c.Result? && c.agent in w.agents && c.run == id && c.step in w.planner.runs[id].steps
    ensures Appended(w, c) == [TaskResult(c.agent, id, c.step, c.ok, c.error)]
  {
  }

  // ---- Hand-outs ----

  function DispatchEntries(trail: seq<Entry>, key: S.Key): nat {
    if trail == [] then 0
    else
      var e := trail[|trail| - 1];
      DispatchEntries(trail[..|trail| - 1], key) + if e.TaskDispatch? && (e.run, e.step) == key then 1 else 0
  }

  lemma DispatchEntriesAppend(trail: seq<Entry>, w: World, c: Call, key: S.Key)
    ensures DispatchEntries(trail + Appended(w, c), key) ==
            DispatchEntries(trail, key) + if CallHandsOut(w, c, key) then 1 else 0
  {
    var more := Appended(w, c);
    if more == [] {
      assert trail + more == trail;
    } else {
      assert (trail + more)[..|trail|] == trail;
    }
  }

  lemma {:induction false} TrailCountsHandouts(h: seq<Call>, key: S.Key)
    ensures DispatchEntries(TrailOf(h), key) == CallHandouts(h, key)
  {
    if h != [] {
      TrailCountsHandouts(h[..|h| - 1], key);
      DispatchEntriesAppend(TrailOf(h[..|h| - 1]), Reached(h[..|h| - 1]), h[|h| - 1], key);
    }
  }

  /** The audit log and the store never disagree about hand-outs: over every history the dispatch
      entries of a step are as many as its stored attempts. */
  lemma TrailCountsAttempts(h: seq<Call>, key: S.Key)
    requires PlausibleCalls(h)
    ensures DispatchEntries(TrailOf(h), key) == Attempts(Reached(h).store, key)
  {
    TrailCountsHandouts(h, key);
    AttemptsCountHandouts(h, key);
  }
}
