/** How the stored history follows the planner over every sequence of API calls. */
module Simulation {
  import opened Prelude
  import opened Graphs
  import opened Scenarios
  import opened RunModel
  import opened RunProperties
  import opened PlannerModel
  import opened WorldModel
  import S = StoreModel

  /** What a stored step status says about the planner's, and the other way round. */
  predicate Follows(planned: StepStatus, stored: StepStatus) {
    && (planned.Success? <==> stored.Success?)
    && (planned.Failed? <==> stored.Failed?)
    && (planned.Dispatched? ==> stored.Dispatched?)
    && (planned.Queued? || planned.Skipped? ==> stored.Queued? || stored.Dispatched?)
    && (stored.Aborted? ==> planned.Aborted?)
    && !stored.Skipped? && !stored.Running? && !planned.Running?
  }

  predicate HasStep(p: PlannerView, key: S.Key) {
    key.0 in p.runs && key.1 in p.runs[key.0].steps
  }

  function Planned(p: PlannerView, key: S.Key): StepStatus
    requires HasStep(p, key)
  {
    p.runs[key.0].steps[key.1].status
  }

  /** The step has its two rows, which agree with each other and follow the planner; a
      successful item never awaits cleanup. */
  predicate RowsFollow(p: PlannerView, s: S.StoreView, key: S.Key) {
    && (key in s.steps <==> HasStep(p, key))
    && (key in s.queue <==> HasStep(p, key))
    && (HasStep(p, key) ==>
          && Follows(Planned(p, key), s.steps[key].status)
          && s.queue[key].status == s.steps[key].status
          && (s.queue[key].status.Success? ==> !s.queue[key].cleanup.Pending?))
  }

  predicate SameRuns(p: PlannerView, s: S.StoreView) {
    s.runs.Keys == p.runs.Keys && OwnIds(p)
  }

  ghost predicate Simulates(p: PlannerView, s: S.StoreView) {
    SameRuns(p, s) && forall key :: RowsFollow(p, s, key)
  }

  // ---- Key by key, every call keeps the rows in step ----

  lemma DispatchKey(p: PlannerView, s: S.StoreView, agent: string, platform: string, now: Time, key: S.Key)
    requires RowsFollow(p, s, key) && Task(p, platform).Some?
    ensures RowsFollow(NextIn(p, agent, platform, now),
                       S.UpdateStep(s, Task(p, platform).value, DispatchChange(agent), now), key)
  {
    var (id, k) := Task(p, platform).value;
    assert HasStep(p, (id, k)) && Planned(p, (id, k)).Queued?;
  }

  lemma ReportedStep(p: PlannerView, run: RunId, step: StepId, ok: bool, output: string, error: Option<string>,
                     now: Time, key: S.Key)
    ensures var p' := ReportIn(p, run, step, ok, output, error, now);
            && (HasStep(p', key) <==> HasStep(p, key))
            && (HasStep(p, key) ==>
                  if key == (run, step) then Planned(p', key) == if ok then Success else Failed
                  else Planned(p', key) == Planned(p, key) || (Planned(p, key).Queued? && Planned(p', key).Skipped?))
  {
  }

  lemma ResultKey(p: PlannerView, s: S.StoreView, run: RunId, step: StepId, ok: bool, output: string,
                  error: Option<string>, now: Time, key: S.Key)
    requires RowsFollow(p, s, key)
    ensures RowsFollow(ReportIn(p, run, step, ok, output, error, now),
                       S.UpdateStep(s, (run, step), ResultChange(ok, output, error), now), key)
  {
    ReportedStep(p, run, step, ok, output, error, now, key);
  }

  lemma StatusKey(p: PlannerView, s: S.StoreView, id: RunId, status: RunStatus, now: Time, key: S.Key)
    requires RowsFollow(p, s, key)
    ensures RowsFollow(p, S.UpdateRunStatus(s, id, status, true, now), key)
  {
  }

  lemma AbortKey(p: PlannerView, s: S.StoreView, reason: string, now: Time, key: S.Key)
    requires RowsFollow(p, s, key)
    ensures RowsFollow(AbortIn(p, reason, now), s, key)
  {
  }

  lemma RetryKey(p: PlannerView, s: S.StoreView, id: RunId, key: S.Key)
    requires RowsFollow(p, s, key) && SameRuns(p, s)
    ensures RowsFollow(RetryIn(p, id), S.RetryStored(s, id), key)
  {
    assert id in s.runs <==> id in p.runs;
  }

  lemma CleanupKey(p: PlannerView, s: S.StoreView, id: RunId, key: S.Key)
    requires RowsFollow(p, s, key)
    ensures RowsFollow(p, S.CompleteCleanup(s, id), key)
  {
  }

  lemma PauseKey(p: PlannerView, s: S.StoreView, ids: seq<RunId>, key: S.Key)
    requires RowsFollow(p, s, key)
    ensures RowsFollow(PauseIn(p, ids), s, key) && RowsFollow(ResumeIn(p, ids), s, key)
  {
  }

  /** New rows appear exactly for the steps of the new run. */
  lemma {:induction false} AddedRow(s: S.StoreView, id: RunId, steps: seq<ScenarioStep>, n: nat, maxAttempts: int, key: S.Key)
    requires n <= |steps| && (key in s.queue <==> key in s.steps)
    ensures var t := S.AddRows(s, id, steps, n, maxAttempts);
            && t.runs == s.runs && (key in t.queue <==> key in t.steps)
            && (if exists j :: 0 <= j < n && key == (id, steps[j].id)
                then key in t.steps && t.steps[key].status.Queued? && t.queue[key].status.Queued? && t.queue[key].attempt == 0
                else (key in t.steps <==> key in s.steps)
                     && (key in s.steps ==> t.steps[key] == s.steps[key] && t.queue[key] == s.queue[key]))
  {
    if n > 0 {
      AddedRow(s, id, steps, n - 1, maxAttempts, key);
      if key == (id, steps[n - 1].id) {
        assert 0 <= n - 1 < n;
      }
    }
  }

  lemma LaunchKey(p: PlannerView, s: S.StoreView, id: RunId, scenario: Scenario, now: Time, key: S.Key)
    requires RowsFollow(p, s, key) && id !in p.runs && ValidDag(scenario.steps)
    ensures RowsFollow(StartIn(p, id, scenario, now), S.CreateRun(s, id, scenario, 1), key)
  {
    AddedRow(s.(runs := s.runs[id := S.RunRow(scenario.name, Active, None)]), id, scenario.steps, |scenario.steps|, 1, key);
    if key.0 == id {
      FreshKey(id, scenario, now, key.1);
      LaunchedStep(p, id, Started(id, scenario, now), key);
    } else {
      LaunchedStep(p, id, Started(id, scenario, now), key);
    }
  }

  lemma LaunchedStep(p: PlannerView, id: RunId, r: RunView, key: S.Key)
    ensures var p' := PlannerView(if id in p.order then p.order else p.order + [id], p.runs[id := r]);
            && (HasStep(p', key) <==> if key.0 == id then key.1 in r.steps else HasStep(p, key))
            && (HasStep(p', key) ==> Planned(p', key) == if key.0 == id then r.steps[key.1].status else Planned(p, key))
  {
  }

  lemma FreshKey(id: RunId, scenario: Scenario, now: Time, k: StepId)
    requires UniqueIds(scenario.steps)
    ensures var r := Started(id, scenario, now);
            && (k in r.steps <==> exists j :: 0 <= j < |scenario.steps| && (id, k) == (id, scenario.steps[j].id))
            && (k in r.steps ==> r.steps[k].status.Queued?)
  {
    var t, ids := StepsById(scenario.steps), StepIds(scenario.steps);
    if k in t {
      assert k in Elements(ids);
      var j :| 0 <= j < |ids| && ids[j] == k;
      assert (id, k) == (id, scenario.steps[j].id);
    }
  }

  // ---- Mirroring after an engagement ----

  /** The step is aborted in a run that is aborted. */
  predicate AbortedInAborted(p: PlannerView, key: S.Key) {
    HasStep(p, key) && p.runs[key.0].status.RunAborted? && Planned(p, key).Aborted?
  }

  /** `t` differs from `s` at the step at most by marking it as aborted. */
  predicate MirrorsAt(p: PlannerView, s: S.StoreView, t: S.StoreView, key: S.Key) {
    RowsFollow(p, s, key) && RowsFollow(p, t, key) &&
    (HasStep(p, key) ==>
       && t.queue[key].attempt == s.queue[key].attempt
       && (t.steps[key].status.Aborted? || t.steps[key].status == s.steps[key].status))
  }

  lemma MirrorChange(p: PlannerView, s: S.StoreView, at: S.Key, error: Option<string>, now: Time, key: S.Key)
    requires RowsFollow(p, s, key) && HasStep(p, at) && Planned(p, at).Aborted?
    ensures MirrorsAt(p, s, S.UpdateStep(s, at, AbortChange(error), now), key)
    ensures HasStep(p, key) && at == key ==> S.UpdateStep(s, at, AbortChange(error), now).steps[key].status.Aborted?
  {
  }

  lemma {:induction false} MirrorStepsKey(p: PlannerView, s: S.StoreView, r: RunView, ids: seq<StepId>, n: nat, now: Time, key: S.Key)
    requires n <= |ids| && r.id in p.runs && p.runs[r.id] == r && RowsFollow(p, s, key)
    ensures MirrorsAt(p, s, MirrorSteps(s, r, ids, n, now), key)
    ensures HasStep(p, key) && Planned(p, key).Aborted? && key.0 == r.id && (exists j :: 0 <= j < n && ids[j] == key.1) ==>
              MirrorSteps(s, r, ids, n, now).steps[key].status.Aborted?
  {
    if n > 0 {
      MirrorStepsKey(p, s, r, ids, n - 1, now, key);
      var t, k := MirrorSteps(s, r, ids, n - 1, now), ids[n - 1];
      if k in r.steps && r.steps[k].status.Aborted? {
        MirrorChange(p, t, (r.id, k), r.steps[k].error, now, key);
      }
    }
  }

  lemma MirrorRunKey(p: PlannerView, s: S.StoreView, r: RunView, now: Time, key: S.Key)
    requires r.id in p.runs && p.runs[r.id] == r && RowsFollow(p, s, key)
    ensures MirrorsAt(p, s, MirrorRun(s, r, now), key)
    ensures AbortedInAborted(p, key) && key.0 == r.id && key.1 in StepIds(r.scenario.steps) ==>
              MirrorRun(s, r, now).steps[key].status.Aborted?
  {
    if r.status.RunAborted? {
      var u := S.UpdateRunStatus(s, r.id, RunAborted, true, now);
      StatusKey(p, s, r.id, RunAborted, now, key);
      MirrorStepsKey(p, u, r, StepIds(r.scenario.steps), |r.scenario.steps|, now, key);
    }
  }

  predicate OwnIds(p: PlannerView) {
    forall id :: id in p.runs ==> p.runs[id].id == id
  }

  lemma {:induction false} MirrorRunsKey(p: PlannerView, s: S.StoreView, n: nat, now: Time, key: S.Key)
    requires n <= |p.order| && RowsFollow(p, s, key) && OwnIds(p)
    ensures MirrorsAt(p, s, MirrorRuns(s, p, n, now), key)
    ensures (&& AbortedInAborted(p, key) && (exists i :: 0 <= i < n && p.order[i] == key.0)
             && key.1 in StepIds(p.runs[key.0].scenario.steps)) ==>
              MirrorRuns(s, p, n, now).steps[key].status.Aborted?
  {
    if n > 0 {
      MirrorRunsKey(p, s, n - 1, now, key);
      var id := p.order[n - 1];
      if id in p.runs {
        MirrorRunKey(p, MirrorRuns(s, p, n - 1, now), p.runs[id], now, key);
      }
    }
  }

  lemma {:induction false} MirrorStepsKeepRuns(s: S.StoreView, r: RunView, ids: seq<StepId>, n: nat, now: Time)
    requires n <= |ids|
    ensures MirrorSteps(s, r, ids, n, now).runs == s.runs
  {
    if n > 0 {
      MirrorStepsKeepRuns(s, r, ids, n - 1, now);
    }
  }

  lemma {:induction false} MirrorRunsKeepRuns(s: S.StoreView, p: PlannerView, n: nat, now: Time)
    requires n <= |p.order|
    ensures MirrorRuns(s, p, n, now).runs.Keys == s.runs.Keys
  {
    if n > 0 {
      MirrorRunsKeepRuns(s, p, n - 1, now);
      var id, t := p.order[n - 1], MirrorRuns(s, p, n - 1, now);
      if id in p.runs && p.runs[id].status.RunAborted? {
        var r := p.runs[id];
        MirrorStepsKeepRuns(S.UpdateRunStatus(t, r.id, RunAborted, true, now), r, StepIds(r.scenario.steps),
                            |r.scenario.steps|, now);
      }
    }
  }

  lemma {:induction false} AddRowsKeepRuns(s: S.StoreView, id: RunId, steps: seq<ScenarioStep>, n: nat, maxAttempts: int)
    requires n <= |steps|
    ensures S.AddRows(s, id, steps, n, maxAttempts).runs == s.runs
  {
    if n > 0 {
      AddRowsKeepRuns(s, id, steps, n - 1, maxAttempts);
    }
  }

  lemma EngageKey(p: PlannerView, s: S.StoreView, reason: string, now: Time, key: S.Key)
    requires RowsFollow(p, s, key) && OwnIds(p)
    ensures var p' := AbortIn(p, reason, now);
            && RowsFollow(p', MirrorAll(s, p', now), key)
            && (HasStep(p', key) ==> MirrorAll(s, p', now).queue[key].attempt == s.queue[key].attempt)
  {
    var p' := AbortIn(p, reason, now);
    AbortKey(p, s, reason, now, key);
    assert OwnIds(p');
    MirrorRunsKey(p', s, |p'.order|, now, key);
  }

  lemma ListedKey(r: RunView, k: StepId)
    requires WellFormed(r) && k in r.steps
    ensures k in StepIds(r.scenario.steps)
  {
    assert k in StepTable(r).Keys;
    assert k in Elements(StepIds(r.scenario.steps));
  }

  lemma EngageMirrors(p: PlannerView, s: S.StoreView, why: string, now: Time, key: S.Key)
    requires OwnIds(p) && key.0 in p.order && RowsFollow(p, s, key)
    requires HasStep(p, key) && key.1 in StepIds(p.runs[key.0].scenario.steps)
    requires AbortedInAborted(AbortIn(p, why, now), key)
    ensures var p' := AbortIn(p, why, now);
            var t := MirrorAll(s, p', now);
            key in t.steps && t.steps[key].status.Aborted?
  {
    var p' := AbortIn(p, why, now);
    AbortKey(p, s, why, now, key);
    assert OwnIds(p');
    MirrorRunsKey(p', s, |p'.order|, now, key);
  }

  // ---- Histories ----

  lemma CallKeepsKey(w: World, c: Call, key: S.Key)
    requires SameRuns(w.planner, w.store) && RowsFollow(w.planner, w.store, key) && PlausibleCall(w, c)
    ensures RowsFollow(PlannerAfter(w, c), StoreAfter(w, c), key)
  {
    var p, s := w.planner, w.store;
    match c
    case Launch(id, scenario, now) =>
      if ValidDag(scenario.steps) { LaunchKey(p, s, id, scenario, now, key); }
    case Beacon(agent, platform, now) =>
      if agent in w.agents {
        if KillswitchActive(w) {
          AbortKey(p, s, KillswitchReason(w), now, key);
        } else if Task(p, platform).Some? {
          DispatchKey(p, s, agent, platform, now, key);
        }
      }
    case Result(agent, run, step, ok, output, error, now) =>
      if agent in w.agents {
        var p' := ReportIn(p, run, step, ok, output, error, now);
        var t := S.UpdateStep(s, (run, step), ResultChange(ok, output, error), now);
        ResultKey(p, s, run, step, ok, output, error, now, key);
        if run in p'.runs && !p'.runs[run].status.Active? {
          StatusKey(p', t, run, p'.runs[run].status, now, key);
        }
      }
    case Engage(reason, now) => EngageKey(p, s, "killswitch:" + reason, now, key);
    case RetryRun(id) => RetryKey(p, s, id, key);
    case CleanupRun(id) => CleanupKey(p, s, id, key);
    case Pause(ids) => PauseKey(p, s, ids, key);
    case Resume(ids) => PauseKey(p, s, ids, key);
    case _ =>
  }

  lemma CallKeepsRuns(w: World, c: Call)
    requires SameRuns(w.planner, w.store) && PlausibleCall(w, c)
    ensures SameRuns(PlannerAfter(w, c), StoreAfter(w, c))
  {
    PlannerKeepsIds(w, c);
    var s := w.store;
    match c
    case Launch(id, scenario, now) =>
      AddRowsKeepRuns(s.(runs := s.runs[id := S.RunRow(scenario.name, Active, None)]), id, scenario.steps, |scenario.steps|, 1);
    case Engage(reason, now) =>
      MirrorRunsKeepRuns(s, PlannerAfter(w, c), |PlannerAfter(w, c).order|, now);
    case _ =>
      assert StoreAfter(w, c).runs.Keys == s.runs.Keys;
  }

  lemma PlannerKeepsIds(w: World, c: Call)
    requires OwnIds(w.planner) && PlausibleCall(w, c)
    ensures OwnIds(PlannerAfter(w, c))
    ensures PlannerAfter(w, c).runs.Keys ==
            w.planner.runs.Keys + if c.Launch? && ValidDag(c.scenario.steps) then {c.id} else {}
  {
    if !c.Launch? {
      assert PlannerAfter(w, c).runs.Keys == w.planner.runs.Keys;
    }
  }

  /** Over every sequence of API calls the store simulates the planner. */
  lemma {:induction false} HistoryKeepsSimulation(h: seq<Call>)
    requires PlausibleCalls(h)
    ensures PlannerInv(Reached(h).planner) && Simulates(Reached(h).planner, Reached(h).store)
  {
    if h != [] {
      var h', c := h[..|h| - 1], h[|h| - 1];
      var w := Reached(h');
      HistoryKeepsSimulation(h');
      DoParts(w, c);
      CallKeepsRuns(w, c);
      forall key
        ensures RowsFollow(PlannerAfter(w, c), StoreAfter(w, c), key)
      {
        CallKeepsKey(w, c, key);
      }
      if PlannerPart(w, c).Some? {
        EventKeepsInvariant(w.planner, PlannerPart(w, c).value);
      }
    }
  }

  /** What a history guarantees about one step. */
  lemma ReachedStep(h: seq<Call>, key: S.Key)
    requires PlausibleCalls(h)
    ensures var w := Reached(h);
            && RowsFollow(w.planner, w.store, key) && OwnIds(w.planner) && SameRuns(w.planner, w.store)
            && (HasStep(w.planner, key) ==>
                  key.0 in w.planner.order && key.1 in StepIds(w.planner.runs[key.0].scenario.steps))
  {
    HistoryKeepsSimulation(h);
    var p := Reached(h).planner;
    if HasStep(p, key) {
      ListedKey(p.runs[key.0], key.1);
      assert key.0 in Elements(p.order);
    }
  }

  /** Whatever happened before, an engagement leaves every aborted step of every aborted
      run stored as aborted. */
  lemma EngagementIsMirrored(h: seq<Call>, reason: string, now: Time, key: S.Key)
    requires PlausibleCalls(h) && now > 0.0
    requires AbortedInAborted(Do(Reached(h), Engage(reason, now)).planner, key)
    ensures var t := Do(Reached(h), Engage(reason, now)).store; key in t.steps && t.steps[key].status.Aborted?
  {
    ReachedStep(h, key);
    EngageMirrors(Reached(h).planner, Reached(h).store, "killswitch:" + reason, now, key);
  }

  // ---- Retries and attempts ----

  /** A retry requeues no more stored steps than planner steps. */
  lemma RetryRequeuesAtMost(p: PlannerView, s: S.StoreView, id: RunId)
    requires Simulates(p, s) && id in p.runs
    ensures |S.RetryableRows(s, id)| <= |RetryableSteps(p.runs[id])|
  {
    var keys := set k | k in RetryableSteps(p.runs[id]) :: (id, k);
    forall key | key in S.RetryableRows(s, id)
      ensures key in keys
    {
      assert RowsFollow(p, s, key);
      assert key.1 in RetryableSteps(p.runs[id]) && key == (id, key.1);
    }
    SubsetSize(S.RetryableRows(s, id), keys);
    TaggedCount(id, RetryableSteps(p.runs[id]));
  }

  lemma {:induction false} TaggedCount(id: RunId, ks: set<StepId>)
    ensures |set k | k in ks :: (id, k)| == |ks|
  {
    if k :| k in ks {
      TaggedCount(id, ks - {k});
      assert (set j | j in ks :: (id, j)) == (set j | j in ks - {k} :: (id, j)) + {(id, k)};
    }
  }

  /** The call hands the step to an agent. */
  ghost predicate CallHandsOut(w: World, c: Call, key: S.Key) {
    c.Beacon? && c.agent in w.agents && !KillswitchActive(w) && Task(w.planner, c.platform) == Some(key)
  }

  ghost function CallHandouts(h: seq<Call>, key: S.Key): nat {
    if h == [] then 0
    else CallHandouts(h[..|h| - 1], key) + if CallHandsOut(Reached(h[..|h| - 1]), h[|h| - 1], key) then 1 else 0
  }

  ghost function RetryCalls(h: seq<Call>, id: RunId): nat {
    if h == [] then 0
    else RetryCalls(h[..|h| - 1], id) + if h[|h| - 1] == RetryRun(id) then 1 else 0
  }

  function Attempts(s: S.StoreView, key: S.Key): nat {
    if key in s.queue then s.queue[key].attempt else 0
  }

  lemma CallCountsAttempt(w: World, c: Call, key: S.Key)
    requires RowsFollow(w.planner, w.store, key) && OwnIds(w.planner) && PlausibleCall(w, c)
    ensures Attempts(StoreAfter(w, c), key) == Attempts(w.store, key) + if CallHandsOut(w, c, key) then 1 else 0
  {
    var p, s := w.planner, w.store;
    match c
    case Launch(id, scenario, now) =>
      AddedRow(s.(runs := s.runs[id := S.RunRow(scenario.name, Active, None)]), id, scenario.steps,
               |scenario.steps|, 1, key);
    case Engage(reason, now) =>
      EngageKey(p, s, "killswitch:" + reason, now, key);
    case _ =>
  }

  /** The stored attempt counter counts the hand-outs, no more and no less. */
  lemma {:induction false} AttemptsCountHandouts(h: seq<Call>, key: S.Key)
    requires PlausibleCalls(h)
    ensures Attempts(Reached(h).store, key) == CallHandouts(h, key)
  {
    if h != [] {
      AttemptsCountHandouts(h[..|h| - 1], key);
      ReachedStep(h[..|h| - 1], key);
      CallCountsAttempt(Reached(h[..|h| - 1]), h[|h| - 1], key);
      DoParts(Reached(h[..|h| - 1]), h[|h| - 1]);
    }
  }

  /** The planner events behind a history of calls. */
  ghost function Events(h: seq<Call>): seq<PlannerEvent> {
    if h == [] then []
    else
      var e := PlannerPart(Reached(h[..|h| - 1]), h[|h| - 1]);
      Events(h[..|h| - 1]) + if e.Some? then [e.value] else []
  }

  /** The planner sees an ordinary history of events, with the same hand-outs and retries. */
  lemma {:induction false} CallsAreEvents(h: seq<Call>, key: S.Key)
    requires PlausibleCalls(h)
    ensures PlausibleHistory(Events(h)) && After(Events(h)) == Reached(h).planner
    ensures Handouts(Events(h), key.0, key.1) == CallHandouts(h, key)
    ensures Retries(Events(h), key.0) == RetryCalls(h, key.0)
  {
    if h != [] {
      var h', c := h[..|h| - 1], h[|h| - 1];
      var e := PlannerPart(Reached(h'), c);
      CallsAreEvents(h', key);
      DoParts(Reached(h'), c);
      if e.Some? {
        assert Events(h) == Events(h') + [e.value];
        EventAppended(Events(h'), e.value, key);
        CallMatchesEvent(Reached(h'), c, key);
      } else {
        assert Events(h) == Events(h');
      }
    }
  }

  lemma EventAppended(h: seq<PlannerEvent>, e: PlannerEvent, key: S.Key)
    requires PlausibleHistory(h) && Plausible(After(h), e)
    ensures PlausibleHistory(h + [e]) && After(h + [e]) == Apply(After(h), e)
    ensures Handouts(h + [e], key.0, key.1) == Handouts(h, key.0, key.1) + if HandsOut(After(h), e, key.0, key.1) then 1 else 0
    ensures Retries(h + [e], key.0) == Retries(h, key.0) + if e == RetryFailed(key.0) then 1 else 0
  {
    assert (h + [e])[..|h + [e]| - 1] == h;
  }

  /** A call hands a step out, or retries a run, exactly if its event does. */
  lemma CallMatchesEvent(w: World, c: Call, key: S.Key)
    requires PlannerPart(w, c).Some?
    ensures HandsOut(w.planner, PlannerPart(w, c).value, key.0, key.1) <==> CallHandsOut(w, c, key)
    ensures PlannerPart(w, c).value == RetryFailed(key.0) <==> c == RetryRun(key.0)
  {
  }

  /** No step is attempted more often than once plus once per retry of its run. */
  lemma AttemptsBounded(h: seq<Call>, key: S.Key)
    requires PlausibleCalls(h)
    ensures Attempts(Reached(h).store, key) <= 1 + RetryCalls(h, key.0)
  {
    AttemptsCountHandouts(h, key);
    CallsAreEvents(h, key);
    HandoutsBounded(Events(h), key.0, key.1);
  }
}
