/** The planner as a value, its events, and everything that holds over all histories. */
module PlannerModel {
  import opened Prelude
  import opened Graphs
  import opened Scenarios
  import opened RunModel
  import opened RunProperties

  /** The runs, with the insertion order in which the planner visits them. */
  datatype PlannerView = PlannerView(order: seq<RunId>, runs: map<RunId, RunView>)

  datatype PlannerEvent =
    | StartRun(id: RunId, scenario: Scenario, now: Time)
    | PauseRuns(ids: seq<RunId>)
    | ResumeRuns(ids: seq<RunId>)
    | RetryFailed(id: RunId)
    | NextTask(agent: string, platform: string, now: Time)
    | Report(run: RunId, step: StepId, ok: bool, output: string, error: Option<string>, now: Time)
    | AbortAll(reason: string, now: Time)

  const EmptyPlanner := PlannerView([], map[])

  /** Platform names are ASCII, so only ASCII letters matter when they are compared. */
  function Lower(s: string): string {
    seq(|s|, i requires 0 <= i < |s| => if 'A' <= s[i] <= 'Z' then s[i] - 'A' + 'a' else s[i])
  }

  // ---- Choosing the next task ----

  /** The first ready step of a run from position `i` of the scenario order on. */
  function FirstReadyStep(r: RunView, ids: seq<StepId>, i: nat): (k: Option<StepId>)
    requires i <= |ids|
    ensures k.Some? ==> k.value in r.steps && r.StepReady(k.value)
    ensures k.None? ==> forall j :: i <= j < |ids| && ids[j] in r.steps ==> !r.StepReady(ids[j])
    decreases |ids| - i
  {
    if i == |ids| then None
    else if ids[i] in r.steps && r.StepReady(ids[i]) then Some(ids[i])
    else FirstReadyStep(r, ids, i + 1)
  }

  function ReadyStep(r: RunView): Option<StepId> {
    FirstReadyStep(r, StepIds(r.scenario.steps), 0)
  }

  predicate Serves(r: RunView, platform: string) {
    r.status.Active? && r.Accepts(platform)
  }

  /** The first run, from position `i` of the insertion order on, with work for the
      platform, and its first ready step. */
  function FirstTask(runs: map<RunId, RunView>, order: seq<RunId>, i: nat, platform: string): (t: Option<(RunId, StepId)>)
    requires i <= |order|
    ensures t.Some? ==>
              && t.value.0 in runs && t.value.0 in order && Serves(runs[t.value.0], platform)
              && t.value.1 in runs[t.value.0].steps && runs[t.value.0].StepReady(t.value.1)
    ensures t.None? ==>
              forall j :: i <= j < |order| && order[j] in runs && Serves(runs[order[j]], platform) ==>
                ReadyStep(runs[order[j]]).None?
    decreases |order| - i
  {
    if i == |order| then None
    else if order[i] in runs && Serves(runs[order[i]], platform) && ReadyStep(runs[order[i]]).Some? then
      Some((order[i], ReadyStep(runs[order[i]]).value))
    else FirstTask(runs, order, i + 1, platform)
  }

  function Task(p: PlannerView, platform: string): Option<(RunId, StepId)> {
    FirstTask(p.runs, p.order, 0, Lower(platform))
  }

  // ---- Events ----

  ghost function StartIn(p: PlannerView, id: RunId, scenario: Scenario, now: Time): PlannerView
    requires UniqueIds(scenario.steps)
  {
    if ValidDag(scenario.steps) then AddRun(p, id, scenario, now) else p
  }

  function AddRun(p: PlannerView, id: RunId, scenario: Scenario, now: Time): PlannerView
    requires UniqueIds(scenario.steps)
  {
    PlannerView(if id in p.order then p.order else p.order + [id], p.runs[id := Started(id, scenario, now)])
  }

  function PauseIn(p: PlannerView, ids: seq<RunId>): PlannerView {
    p.(runs := map id | id in p.runs :: if id in ids then PauseRun(p.runs[id]) else p.runs[id])
  }

  function ResumeIn(p: PlannerView, ids: seq<RunId>): PlannerView {
    p.(runs := map id | id in p.runs :: if id in ids then ResumeRun(p.runs[id]) else p.runs[id])
  }

  function RetryIn(p: PlannerView, id: RunId): PlannerView {
    if id in p.runs then p.(runs := p.runs[id := RetryRun(p.runs[id])]) else p
  }

  function NextIn(p: PlannerView, agent: string, platform: string, now: Time): PlannerView {
    var t := Task(p, platform);
    if t.None? then p
    else p.(runs := p.runs[t.value.0 := DispatchStep(p.runs[t.value.0], t.value.1, agent, now)])
  }

  function ReportIn(p: PlannerView, run: RunId, step: StepId, ok: bool, output: string, error: Option<string>, now: Time): PlannerView {
    if run in p.runs && step in p.runs[run].steps then
      p.(runs := p.runs[run := ReportStep(p.runs[run], step, ok, output, error, now)])
    else p
  }

  function AbortIn(p: PlannerView, reason: string, now: Time): PlannerView {
    p.(runs := map id | id in p.runs :: AbortRun(p.runs[id], reason, now))
  }

  ghost function Apply(p: PlannerView, e: PlannerEvent): PlannerView {
    match e
    case StartRun(id, scenario, now) => if UniqueIds(scenario.steps) then StartIn(p, id, scenario, now) else p
    case PauseRuns(ids) => PauseIn(p, ids)
    case ResumeRuns(ids) => ResumeIn(p, ids)
    case RetryFailed(id) => RetryIn(p, id)
    case NextTask(agent, platform, now) => NextIn(p, agent, platform, now)
    case Report(run, step, ok, output, error, now) => ReportIn(p, run, step, ok, output, error, now)
    case AbortAll(reason, now) => AbortIn(p, reason, now)
  }

  /** What the environment guarantees: fresh run ids, validated step ids, a positive clock. */
  ghost predicate Plausible(p: PlannerView, e: PlannerEvent) {
    match e
    case StartRun(id, scenario, now) => id !in p.runs && UniqueIds(scenario.steps)
    case Report(_, _, _, _, _, now) => now > 0.0
    case AbortAll(_, now) => now > 0.0
    case _ => true
  }

  /** The planner after a history of events. */
  ghost function After(h: seq<PlannerEvent>): PlannerView {
    if h == [] then EmptyPlanner else Apply(After(h[..|h| - 1]), h[|h| - 1])
  }

  ghost predicate PlausibleHistory(h: seq<PlannerEvent>) {
    h != [] ==> PlausibleHistory(h[..|h| - 1]) && Plausible(After(h[..|h| - 1]), h[|h| - 1])
  }

  ghost predicate PlannerInv(p: PlannerView) {
    && NoDuplicates(p.order) && Elements(p.order) == p.runs.Keys
    && forall id :: id in p.runs ==> RunInv(p.runs[id])
  }

  lemma BulkEventKeepsRun(p: PlannerView, e: PlannerEvent, id: RunId)
    requires e.PauseRuns? || e.ResumeRuns? || e.AbortAll?
    requires Plausible(p, e) && id in p.runs && RunInv(p.runs[id])
    ensures id in Apply(p, e).runs && RunInv(Apply(p, e).runs[id])
  {
    if e.AbortAll? {
      AbortKeeps(p.runs[id], e.reason, e.now);
    } else {
      PauseResumeKeep(p.runs[id]);
    }
  }

  /** The run that a single-run event rewrites. */
  function Target(p: PlannerView, e: PlannerEvent): Option<RunId> {
    match e
    case StartRun(id, _, _) => Some(id)
    case RetryFailed(id) => if id in p.runs then Some(id) else None
    case NextTask(_, platform, _) => if Task(p, platform).Some? then Some(Task(p, platform).value.0) else None
    case Report(run, step, _, _, _, _) => if run in p.runs && step in p.runs[run].steps then Some(run) else None
    case _ => None
  }

  lemma SingleEventKeepsRun(p: PlannerView, e: PlannerEvent, id: RunId)
    requires Plausible(p, e) && Target(p, e) == Some(id)
    requires id in p.runs ==> RunInv(p.runs[id])
    ensures id in Apply(p, e).runs ==> RunInv(Apply(p, e).runs[id])
  {
    match e
    case StartRun(_, scenario, now) => if ValidDag(scenario.steps) { StartedKeeps(id, scenario, now); }
    case RetryFailed(_) => RetryKeeps(p.runs[id]);
    case NextTask(agent, platform, now) => DispatchKeeps(p.runs[id], Task(p, platform).value.1, agent, now);
    case Report(_, step, ok, output, error, now) => ReportKeeps(p.runs[id], step, ok, output, error, now);
  }

  lemma OtherRunsStay(p: PlannerView, e: PlannerEvent, id: RunId)
    requires !e.PauseRuns? && !e.ResumeRuns? && !e.AbortAll?
    requires id in Apply(p, e).runs && Target(p, e) != Some(id)
    ensures id in p.runs && Apply(p, e).runs[id] == p.runs[id]
  {
  }

  lemma EventKeepsRun(p: PlannerView, e: PlannerEvent, id: RunId)
    requires PlannerInv(p) && Plausible(p, e) && id in Apply(p, e).runs
    ensures RunInv(Apply(p, e).runs[id])
  {
    if e.PauseRuns? || e.ResumeRuns? || e.AbortAll? {
      BulkEventKeepsRun(p, e, id);
    } else if Target(p, e) == Some(id) {
      SingleEventKeepsRun(p, e, id);
    } else {
      OtherRunsStay(p, e, id);
    }
  }

  lemma EventKeepsInvariant(p: PlannerView, e: PlannerEvent)
    requires PlannerInv(p) && Plausible(p, e)
    ensures PlannerInv(Apply(p, e))
  {
    forall id | id in Apply(p, e).runs
      ensures RunInv(Apply(p, e).runs[id])
    {
      EventKeepsRun(p, e, id);
    }
    EventKeepsOrder(p, e);
  }

  lemma EventKeepsOrder(p: PlannerView, e: PlannerEvent)
    requires NoDuplicates(p.order) && Elements(p.order) == p.runs.Keys
    ensures NoDuplicates(Apply(p, e).order) && Elements(Apply(p, e).order) == Apply(p, e).runs.Keys
  {
    var p' := Apply(p, e);
    if e.StartRun? && ValidDag(e.scenario.steps) {
      assert e.id in p.order <==> e.id in Elements(p.order);
      assert Elements(p.order + [e.id]) == Elements(p.order) + {e.id};
    } else {
      assert p'.order == p.order && p'.runs.Keys == p.runs.Keys;
    }
  }

  /** Every run is coherent in every reachable state. */
  lemma {:induction false} HistoryKeepsInvariant(h: seq<PlannerEvent>)
    requires PlausibleHistory(h)
    ensures PlannerInv(After(h))
  {
    if h != [] {
      HistoryKeepsInvariant(h[..|h| - 1]);
      EventKeepsInvariant(After(h[..|h| - 1]), h[|h| - 1]);
    }
  }

  // ---- No unexplained deadlock ----

  /** Agents stay idle only if every queued step of every active run they may serve is blocked. */
  lemma IdleMeansBlocked(p: PlannerView, platform: string, id: RunId, k: StepId)
    requires PlannerInv(p) && Task(p, platform).None?
    requires id in p.runs && Serves(p.runs[id], Lower(platform))
    requires k in p.runs[id].steps && p.runs[id].steps[k].status.Queued?
    ensures Blocked(p.runs[id], k)
  {
    assert id in Elements(p.order);
    NoReadyStep(p.runs[id]);
    NothingReadyMeansBlocked(p.runs[id]);
  }

  lemma NoReadyStep(r: RunView)
    requires WellFormed(r)
    ensures ReadyStep(r).None? <==> forall k :: k in r.steps ==> !r.StepReady(k)
  {
    assert r.steps.Keys == StepTable(r).Keys == Elements(StepIds(r.scenario.steps));
    forall k | k in r.steps
      ensures k in StepIds(r.scenario.steps)
    {
      assert k in Elements(StepIds(r.scenario.steps));
    }
  }

  /** Whatever the history, a step is handed out only when all its dependencies succeeded. */
  lemma HandedOutAfterSuccess(h: seq<PlannerEvent>, platform: string)
    requires PlausibleHistory(h) && Task(After(h), platform).Some?
    ensures var (id, k) := Task(After(h), platform).value;
            var r := After(h).runs[id];
            r.status.Active? && forall d :: d in r.steps[k].step.dependsOn ==> d in r.steps && r.steps[d].status.Success?
  {
    HistoryKeepsInvariant(h);
    var (id, k) := Task(After(h), platform).value;
    ReadyMeansDependenciesSucceeded(After(h).runs[id], k);
  }

  // ---- Which step is handed out ----

  /** No step named in the scenario, from the first to the one before position `m`, is ready. */
  ghost predicate NoneReadyBefore(r: RunView, m: nat)
    requires m <= |r.scenario.steps|
  {
    forall j :: 0 <= j < m && r.scenario.steps[j].id in r.steps ==> !r.StepReady(r.scenario.steps[j].id)
  }

  /** The run is active and runs on this platform or on any. */
  ghost predicate OpenTo(r: RunView, platform: string) {
    r.status == Active && ("any" in r.scenario.targetPlatforms || platform in r.scenario.targetPlatforms)
  }

  lemma {:induction false} ReadyStepIsFirst(r: RunView, ids: seq<StepId>, i: nat)
    requires i <= |ids|
    ensures var k := FirstReadyStep(r, ids, i);
            && (k.None? ==> forall j :: i <= j < |ids| && ids[j] in r.steps ==> !r.StepReady(ids[j]))
            && (k.Some? ==> exists m | i <= m < |ids| ::
                  ids[m] == k.value && forall j :: i <= j < m && ids[j] in r.steps ==> !r.StepReady(ids[j]))
    decreases |ids| - i
  {
    if i < |ids| && !(ids[i] in r.steps && r.StepReady(ids[i])) {
      ReadyStepIsFirst(r, ids, i + 1);
    }
  }

  lemma StepAtPosition(r: RunView)
    ensures ReadyStep(r).None? ==> NoneReadyBefore(r, |r.scenario.steps|)
    ensures ReadyStep(r).Some? ==> exists m :: 0 <= m < |r.scenario.steps| && r.scenario.steps[m].id == ReadyStep(r).value
                                               && NoneReadyBefore(r, m)
  {
    var steps, ids := r.scenario.steps, StepIds(r.scenario.steps);
    assert forall j :: 0 <= j < |ids| ==> ids[j] == steps[j].id;
    ReadyStepIsFirst(r, ids, 0);
    if ReadyStep(r).Some? {
      var m :| 0 <= m < |ids| && ids[m] == ReadyStep(r).value && forall j :: 0 <= j < m && ids[j] in r.steps ==> !r.StepReady(ids[j]);
      assert NoneReadyBefore(r, m);
    }
  }

  /** Run `i` of the insertion order is the first one open to the platform with a ready step, and step `m` of its
      scenario is its first ready one. */
  ghost predicate FirstAt(p: PlannerView, platform: string, i: nat, m: nat)
    requires i < |p.order| && p.order[i] in p.runs && m < |p.runs[p.order[i]].scenario.steps|
  {
    var r := p.runs[p.order[i]];
    && OpenTo(r, platform) && NoneReadyBefore(r, m)
    && r.scenario.steps[m].id in r.steps && r.StepReady(r.scenario.steps[m].id)
    && forall j :: 0 <= j < i && p.order[j] in p.runs && OpenTo(p.runs[p.order[j]], platform) ==>
         NoneReadyBefore(p.runs[p.order[j]], |p.runs[p.order[j]].scenario.steps|)
  }

  lemma {:induction false} TaskAtPosition(p: PlannerView, from: nat, platform: string)
    requires from <= |p.order|
    ensures var t := FirstTask(p.runs, p.order, from, platform);
            t.Some? ==> exists i :: from <= i < |p.order| && p.order[i] == t.value.0 && t.value.0 in p.runs
                          && ReadyStep(p.runs[t.value.0]) == Some(t.value.1)
                          && forall j :: from <= j < i && p.order[j] in p.runs && OpenTo(p.runs[p.order[j]], platform) ==>
                               ReadyStep(p.runs[p.order[j]]).None?
    decreases |p.order| - from
  {
    if from < |p.order| {
      TaskAtPosition(p, from + 1, platform);
    }
  }

  /** The task is the first ready step, in scenario order, of the first run, in insertion order, that is open to
      the agent's platform and has a ready step. */
  lemma TaskIsFirst(p: PlannerView, platform: string)
    requires Task(p, platform).Some?
    ensures exists i, m :: 0 <= i < |p.order| && p.order[i] == Task(p, platform).value.0 && p.order[i] in p.runs
              && 0 <= m < |p.runs[p.order[i]].scenario.steps|
              && p.runs[p.order[i]].scenario.steps[m].id == Task(p, platform).value.1
              && FirstAt(p, Lower(platform), i, m)
  {
    var low, t := Lower(platform), Task(p, platform).value;
    TaskAtPosition(p, 0, low);
    var i :| 0 <= i < |p.order| && p.order[i] == t.0 && ReadyStep(p.runs[t.0]) == Some(t.1)
      && forall j :: 0 <= j < i && p.order[j] in p.runs && OpenTo(p.runs[p.order[j]], low) ==> ReadyStep(p.runs[p.order[j]]).None?;
    var r := p.runs[t.0];
    StepAtPosition(r);
    var m :| 0 <= m < |r.scenario.steps| && r.scenario.steps[m].id == t.1 && NoneReadyBefore(r, m);
    forall j | 0 <= j < i && p.order[j] in p.runs && OpenTo(p.runs[p.order[j]], low)
      ensures NoneReadyBefore(p.runs[p.order[j]], |p.runs[p.order[j]].scenario.steps|)
    {
      StepAtPosition(p.runs[p.order[j]]);
    }
    assert FirstAt(p, low, i, m);
  }

  /** Platforms are compared without regard to ASCII case. */
  lemma LowerMeaning(s: string, i: nat)
    requires i < |s|
    ensures |Lower(s)| == |s|
    ensures Lower(s)[i] == if 'A' <= s[i] <= 'Z' then (s[i] as int + 32) as char else s[i]
  {
  }

  /** What a hand-out, a result and an abort write into a step besides its status. */
  lemma StepRecords(r: RunView, k: StepId, j: StepId, agent: string, ok: bool, output: string, error: Option<string>,
                    reason: string, now: Time)
    requires k in r.steps && j in r.steps
    ensures DispatchStep(r, k, agent, now).steps[j] ==
            if j == k then StepState(r.steps[k].step, Dispatched, Some(agent), r.steps[k].output, r.steps[k].error, now, r.steps[k].finishedAt)
            else r.steps[j]
    ensures var t := ReportStep(r, k, ok, output, error, now).steps[j];
            && (t.step, t.assignedAgent, t.startedAt) == (r.steps[j].step, r.steps[j].assignedAgent, r.steps[j].startedAt)
            && (t.output, t.error, t.finishedAt) ==
               if j == k then (output, error, now) else (r.steps[j].output, r.steps[j].error, r.steps[j].finishedAt)
    ensures var t := AbortRun(r, reason, now).steps[j];
            if r.status == Active && !r.steps[j].status.Terminal()
            then t == r.steps[j].(status := Aborted, error := Some(reason), finishedAt := now)
            else t == r.steps[j]
  {
  }

  // ---- Histories whose results arrive only for outstanding steps ----

  ghost predicate Outstanding(p: PlannerView, e: PlannerEvent) {
    e.Report? ==>
      e.run in p.runs && e.step in p.runs[e.run].steps && p.runs[e.run].steps[e.step].status.Dispatched?
  }

  ghost predicate DisciplinedHistory(h: seq<PlannerEvent>) {
    h != [] ==>
      && DisciplinedHistory(h[..|h| - 1])
      && Plausible(After(h[..|h| - 1]), h[|h| - 1])
      && Outstanding(After(h[..|h| - 1]), h[|h| - 1])
  }

  lemma {:induction false} DisciplinedIsPlausible(h: seq<PlannerEvent>)
    requires DisciplinedHistory(h)
    ensures PlausibleHistory(h)
  {
    if h != [] {
      DisciplinedIsPlausible(h[..|h| - 1]);
    }
  }

  /** A result for this run answers a dispatched step. */
  ghost predicate Answers(p: PlannerView, e: PlannerEvent, id: RunId) {
    e.Report? && e.run == id ==>
      id in p.runs && e.step in p.runs[id].steps && p.runs[id].steps[e.step].status.Dispatched?
  }

  /** So do all results for this run in the second part of a history. */
  ghost predicate Answered(h: seq<PlannerEvent>, more: seq<PlannerEvent>, id: RunId) {
    more != [] ==>
      && Answered(h, more[..|more| - 1], id)
      && Answers(After(h + more[..|more| - 1]), more[|more| - 1], id)
  }

  lemma SingleEventKeepsClosure(p: PlannerView, e: PlannerEvent, id: RunId)
    requires Plausible(p, e) && Answers(p, e, id) && Target(p, e) == Some(id)
    requires id in p.runs ==> RunInv(p.runs[id]) && SuccessClosed(p.runs[id])
    ensures id in Apply(p, e).runs ==> SuccessClosed(Apply(p, e).runs[id])
  {
    match e
    case StartRun(_, scenario, now) => if ValidDag(scenario.steps) { StartedClosed(id, scenario, now); }
    case RetryFailed(_) => RetryKeepsClosure(p.runs[id]);
    case NextTask(agent, platform, now) => DispatchKeepsClosure(p.runs[id], Task(p, platform).value.1, agent, now);
    case Report(_, step, ok, output, error, now) => ReportKeepsClosure(p.runs[id], step, ok, output, error, now);
  }

  lemma BulkEventKeepsClosure(p: PlannerView, e: PlannerEvent, id: RunId)
    requires (e.AbortAll? || e.PauseRuns? || e.ResumeRuns?) && id in p.runs && SuccessClosed(p.runs[id])
    ensures id in Apply(p, e).runs && SuccessClosed(Apply(p, e).runs[id])
  {
    if e.AbortAll? {
      AbortKeepsClosure(p.runs[id], e.reason, e.now);
    } else {
      SameStepsSameClosure(p.runs[id], Apply(p, e).runs[id]);
    }
  }

  lemma SameStepsSameClosure(r: RunView, r': RunView)
    requires r'.steps == r.steps && SuccessClosed(r)
    ensures SuccessClosed(r')
  {
  }

  lemma EventKeepsClosure(p: PlannerView, e: PlannerEvent, id: RunId)
    requires Plausible(p, e) && Answers(p, e, id) && id in Apply(p, e).runs
    requires id in p.runs ==> RunInv(p.runs[id]) && SuccessClosed(p.runs[id])
    ensures SuccessClosed(Apply(p, e).runs[id])
  {
    if e.AbortAll? || e.PauseRuns? || e.ResumeRuns? {
      BulkEventKeepsClosure(p, e, id);
    } else if Target(p, e) == Some(id) {
      SingleEventKeepsClosure(p, e, id);
    } else {
      OtherRunsStay(p, e, id);
    }
  }

  /** Successes are closed under dependencies in every disciplined history. */
  lemma {:induction false} DisciplinedKeepsClosure(h: seq<PlannerEvent>)
    requires DisciplinedHistory(h)
    ensures forall id :: id in After(h).runs ==> SuccessClosed(After(h).runs[id])
  {
    if h != [] {
      var h', e := h[..|h| - 1], h[|h| - 1];
      DisciplinedKeepsClosure(h');
      DisciplinedIsPlausible(h');
      HistoryKeepsInvariant(h');
      forall id | id in After(h).runs
        ensures SuccessClosed(After(h).runs[id])
      {
        EventKeepsClosure(After(h'), e, id);
      }
    }
  }

  /** In a disciplined history agents are idle exactly when everything queued is blocked. */
  lemma IdleIffBlocked(h: seq<PlannerEvent>, platform: string)
    requires DisciplinedHistory(h)
    ensures Task(After(h), platform).None? <==>
            forall id, k ::
              (&& id in After(h).runs && Serves(After(h).runs[id], Lower(platform))
               && k in After(h).runs[id].steps && After(h).runs[id].steps[k].status.Queued?)
              ==> Blocked(After(h).runs[id], k)
  {
    var p := After(h);
    DisciplinedIsPlausible(h);
    HistoryKeepsInvariant(h);
    DisciplinedKeepsClosure(h);
    var t := Task(p, platform);
    if t.Some? {
      ReadyIsNotBlocked(p.runs[t.value.0], t.value.1);
    } else {
      forall id, k | id in p.runs && Serves(p.runs[id], Lower(platform)) && k in p.runs[id].steps
        && p.runs[id].steps[k].status.Queued?
        ensures Blocked(p.runs[id], k)
      {
        IdleMeansBlocked(p, platform, id, k);
      }
    }
  }

  // ---- How often a step is handed out ----

  ghost predicate HandsOut(p: PlannerView, e: PlannerEvent, id: RunId, k: StepId) {
    e.NextTask? && Task(p, e.platform) == Some((id, k))
  }

  ghost function Handouts(h: seq<PlannerEvent>, id: RunId, k: StepId): nat {
    if h == [] then 0
    else Handouts(h[..|h| - 1], id, k) + if HandsOut(After(h[..|h| - 1]), h[|h| - 1], id, k) then 1 else 0
  }

  ghost function Retries(h: seq<PlannerEvent>, id: RunId): nat {
    if h == [] then 0
    else Retries(h[..|h| - 1], id) + if h[|h| - 1] == RetryFailed(id) then 1 else 0
  }

  ghost predicate IsQueued(p: PlannerView, id: RunId, k: StepId) {
    id in p.runs && k in p.runs[id].steps && p.runs[id].steps[k].status.Queued?
  }

  lemma BecomesQueued(p: PlannerView, e: PlannerEvent, id: RunId, k: StepId)
    requires Plausible(p, e) && IsQueued(Apply(p, e), id, k)
    ensures IsQueued(p, id, k) || e == RetryFailed(id) || (e.StartRun? && e.id == id && id !in p.runs)
    ensures !HandsOut(p, e, id, k)
  {
    if e.PauseRuns? || e.ResumeRuns? || e.AbortAll? {
      assert Apply(p, e).runs.Keys == p.runs.Keys;
    }
  }

  /** No step is handed out more than once per retry call plus once, whatever results
      arrive and whenever they arrive. */
  lemma {:induction false} HandoutsBounded(h: seq<PlannerEvent>, id: RunId, k: StepId)
    requires PlausibleHistory(h)
    ensures Handouts(h, id, k) + (if IsQueued(After(h), id, k) then 1 else 0) <= 1 + Retries(h, id)
    ensures id !in After(h).runs ==> Handouts(h, id, k) == 0
  {
    if h != [] {
      var h', e := h[..|h| - 1], h[|h| - 1];
      HandoutsBounded(h', id, k);
      if IsQueued(After(h), id, k) {
        BecomesQueued(After(h'), e, id, k);
      }
    }
  }

  // ---- Termination ----

  /** Hand-outs, and results that are recorded, of the run. */
  ghost predicate Moves(p: PlannerView, e: PlannerEvent, id: RunId) {
    || (e.NextTask? && Task(p, e.platform).Some? && Task(p, e.platform).value.0 == id)
    || (e.Report? && e.run == id && id in p.runs && e.step in p.runs[id].steps)
  }

  /** A result that finds its step neither queued nor dispatched and makes no step skipped: a repeated
      or a late one. */
  ghost predicate IdleResult(p: PlannerView, e: PlannerEvent, id: RunId) {
    && e.Report? && Moves(p, e, id)
    && !p.runs[id].steps[e.step].status.Queued? && !p.runs[id].steps[e.step].status.Dispatched?
    && !Cascades(p.runs[id], e.step, e.ok)
  }

  ghost function MoveCount(h: seq<PlannerEvent>, id: RunId): nat {
    if h == [] then 0
    else MoveCount(h[..|h| - 1], id) + if Moves(After(h[..|h| - 1]), h[|h| - 1], id) then 1 else 0
  }

  ghost function WeightOf(p: PlannerView, id: RunId): nat {
    if id in p.runs then Weight(p.runs[id]) else 0
  }

  /** Moves other than idle results. */
  ghost function WorkCount(h: seq<PlannerEvent>, id: RunId): nat {
    if h == [] then 0
    else
      var p, e := After(h[..|h| - 1]), h[|h| - 1];
      WorkCount(h[..|h| - 1], id) + if Moves(p, e, id) && !IdleResult(p, e, id) then 1 else 0
  }

  /** Between retries no event whatever raises the weight, and a move lowers it exactly if it is not an
      idle result. */
  lemma MovesLowerWeight(p: PlannerView, e: PlannerEvent, id: RunId)
    requires Plausible(p, e) && id in p.runs && e != RetryFailed(id)
    ensures id in Apply(p, e).runs && WeightOf(Apply(p, e), id) <= WeightOf(p, id)
    ensures Moves(p, e, id) ==> (WeightOf(Apply(p, e), id) < WeightOf(p, id) <==> !IdleResult(p, e, id))
  {
    match e
    case StartRun(_, _, _) =>
    case PauseRuns(_) => SameSteps(p.runs[id], Apply(p, e).runs[id]);
    case ResumeRuns(_) => SameSteps(p.runs[id], Apply(p, e).runs[id]);
    case RetryFailed(_) =>
    case NextTask(agent, platform, now) =>
      var t := Task(p, platform);
      if t.Some? && t.value.0 == id { DispatchLowersWeight(p.runs[id], t.value.1, agent, now); }
    case Report(run, step, ok, output, error, now) =>
      if Moves(p, e, id) { ReportLowersWeight(p.runs[id], step, ok, output, error, now); }
    case AbortAll(reason, now) => AbortLowersWeight(p.runs[id], reason, now);
  }

  lemma SameSteps(r: RunView, r': RunView)
    requires r'.steps == r.steps
    ensures Weight(r') == Weight(r)
  {
  }

  lemma AbortLowersWeight(r: RunView, reason: string, now: Time)
    ensures Weight(AbortRun(r, reason, now)) <= Weight(r)
  {
    var r' := AbortRun(r, reason, now);
    SubsetSize(InStatus(r', Queued), InStatus(r, Queued));
    SubsetSize(InStatus(r', Dispatched), InStatus(r, Dispatched));
  }

  /** What one more event adds to a history. */
  lemma OneMore(h: seq<PlannerEvent>, e: PlannerEvent, id: RunId)
    ensures PlausibleHistory(h + [e]) <==> PlausibleHistory(h) && Plausible(After(h), e)
    ensures After(h + [e]) == Apply(After(h), e)
    ensures MoveCount(h + [e], id) == MoveCount(h, id) + if Moves(After(h), e, id) then 1 else 0
    ensures WorkCount(h + [e], id) == WorkCount(h, id) + if Moves(After(h), e, id) && !IdleResult(After(h), e, id) then 1 else 0
  {
    assert (h + [e])[..|h + [e]| - 1] == h;
  }

  /** Between retries the moves of a run that are not idle results are bounded by the weight it had,
      in every history. */
  lemma {:induction false} MovesBounded(h: seq<PlannerEvent>, more: seq<PlannerEvent>, id: RunId)
    requires PlausibleHistory(h + more) && id in After(h).runs && RetryFailed(id) !in more
    ensures id in After(h + more).runs
    ensures WorkCount(h + more, id) + WeightOf(After(h + more), id) <= WorkCount(h, id) + WeightOf(After(h), id)
  {
    if more == [] {
      assert h + more == h;
    } else {
      var more', e := more[..|more| - 1], more[|more| - 1];
      assert h + more == h + more' + [e];
      OneMore(h + more', e, id);
      MovesBounded(h, more', id);
      MovesLowerWeight(After(h + more'), e, id);
    }
  }

  /** When the results for the run answer dispatched steps, all its moves are bounded. */
  lemma {:induction false} AnsweredMovesBounded(h: seq<PlannerEvent>, more: seq<PlannerEvent>, id: RunId)
    requires PlausibleHistory(h + more) && id in After(h).runs && RetryFailed(id) !in more && Answered(h, more, id)
    ensures id in After(h + more).runs
    ensures MoveCount(h + more, id) + WeightOf(After(h + more), id) <= MoveCount(h, id) + WeightOf(After(h), id)
  {
    if more == [] {
      assert h + more == h;
    } else {
      var more', e := more[..|more| - 1], more[|more| - 1];
      assert h + more == h + more' + [e];
      OneMore(h + more', e, id);
      AnsweredMovesBounded(h, more', id);
      MovesLowerWeight(After(h + more'), e, id);
    }
  }

  /** Without that there is no bound: the same result can be reported any number of times. */
  lemma {:induction false} RepeatedResults(h: seq<PlannerEvent>, e: PlannerEvent, n: nat) returns (all: seq<PlannerEvent>)
    requires PlausibleHistory(h) && e.Report? && e.now > 0.0 && Moves(After(h), e, e.run)
    ensures |all| == |h| + n && h <= all && forall i :: |h| <= i < |all| ==> all[i] == e
    ensures PlausibleHistory(all) && Moves(After(all), e, e.run)
    ensures MoveCount(all, e.run) == MoveCount(h, e.run) + n
  {
    if n == 0 {
      all := h;
    } else {
      var front := RepeatedResults(h, e, n - 1);
      OnceMore(front, e);
      all := front + [e];
    }
  }

  lemma OnceMore(h: seq<PlannerEvent>, e: PlannerEvent)
    requires PlausibleHistory(h) && e.Report? && e.now > 0.0 && Moves(After(h), e, e.run)
    ensures PlausibleHistory(h + [e]) && Moves(After(h + [e]), e, e.run)
    ensures MoveCount(h + [e], e.run) == MoveCount(h, e.run) + 1
  {
    OneMore(h, e, e.run);
    ReportedAgain(After(h), e);
  }

  lemma ReportedAgain(p: PlannerView, e: PlannerEvent)
    requires e.Report? && Moves(p, e, e.run)
    ensures Moves(Apply(p, e), e, e.run)
  {
    ReportKeepsTable(p.runs[e.run], e.step, e.ok, e.output, e.error, e.now);
    assert StepTable(Apply(p, e).runs[e.run]).Keys == StepTable(p.runs[e.run]).Keys;
  }

  lemma FreshWeight(id: RunId, scenario: Scenario, now: Time)
    requires UniqueIds(scenario.steps)
    ensures Weight(Started(id, scenario, now)) == 2 * |scenario.steps|
  {
    var r := Started(id, scenario, now);
    StartedIsQueued(id, scenario, now);
    assert InStatus(r, Queued) == r.steps.Keys == StepTable(r).Keys == Elements(StepIds(scenario.steps));
    assert InStatus(r, Dispatched) == {};
    DistinctCount(StepIds(scenario.steps));
  }

  // ---- Failed steps ----

  ghost predicate HasFailed(p: PlannerView, id: RunId, k: StepId) {
    id in p.runs && k in p.runs[id].steps && p.runs[id].steps[k].status.Failed?
  }

  /** A failed step stays failed exactly unless its run is retried or a success is reported for it. */
  lemma FailureStaysIff(p: PlannerView, e: PlannerEvent, id: RunId, k: StepId)
    requires Plausible(p, e) && HasFailed(p, id, k)
    ensures id in Apply(p, e).runs && DepsOf(Apply(p, e).runs[id]) == DepsOf(p.runs[id])
    ensures HasFailed(Apply(p, e), id, k) <==> e != RetryFailed(id) && !SucceedsAt(e, id, k)
  {
    if e.Report? && Moves(p, e, id) {
      ReportedFailure(p.runs[id], e.step, e.ok, e.output, e.error, e.now, k);
    } else {
      OtherFailure(p, e, id, k);
    }
  }

  lemma ReportedFailure(r: RunView, step: StepId, ok: bool, output: string, error: Option<string>, now: Time, k: StepId)
    requires step in r.steps && k in r.steps && r.steps[k].status.Failed?
    ensures var r' := ReportStep(r, step, ok, output, error, now);
            && DepsOf(r') == DepsOf(r) && k in r'.steps
            && (r'.steps[k].status.Failed? <==> !(step == k && ok))
  {
    ReportKeepsTable(r, step, ok, output, error, now);
    var recorded := RecordResult(r, step, ok, output, error, now);
    assert recorded.steps[k].status == if step == k && ok then Success else Failed;
  }

  lemma OtherFailure(p: PlannerView, e: PlannerEvent, id: RunId, k: StepId)
    requires Plausible(p, e) && HasFailed(p, id, k) && !(e.Report? && Moves(p, e, id))
    ensures id in Apply(p, e).runs && DepsOf(Apply(p, e).runs[id]) == DepsOf(p.runs[id])
    ensures HasFailed(Apply(p, e), id, k) <==> e != RetryFailed(id)
  {
    assert StepTable(Apply(p, e).runs[id]) == StepTable(p.runs[id]);
  }

  predicate SucceedsAt(e: PlannerEvent, id: RunId, k: StepId) {
    e.Report? && e.run == id && e.step == k && e.ok
  }

  lemma DirectDependentStaysHome(p: PlannerView, e: PlannerEvent, id: RunId, k: StepId, j: StepId)
    requires PlannerInv(p) && HasFailed(p, id, k) && j in p.runs[id].steps && k in p.runs[id].steps[j].step.dependsOn
    ensures !HandsOut(p, e, id, j)
  {
    ReadyMeansDependenciesSucceeded(p.runs[id], j);
  }

  /** A failure keeps every step that directly depends on it at home, in all histories: until the run is
      retried or a success is reported for the failed step itself. */
  lemma {:induction false} FailureHoldsDependents(h: seq<PlannerEvent>, more: seq<PlannerEvent>, id: RunId, k: StepId, j: StepId)
    requires PlausibleHistory(h + more) && RetryFailed(id) !in more
    requires forall i :: 0 <= i < |more| ==> !SucceedsAt(more[i], id, k)
    requires HasFailed(After(h), id, k) && j in DepsOf(After(h).runs[id]) && k in DepsOf(After(h).runs[id])[j]
    ensures HasFailed(After(h + more), id, k) && DepsOf(After(h + more).runs[id]) == DepsOf(After(h).runs[id])
    ensures Handouts(h + more, id, j) == Handouts(h, id, j)
  {
    if more == [] {
      assert h + more == h;
    } else {
      var more', e := more[..|more| - 1], more[|more| - 1];
      assert (h + more)[..|h + more| - 1] == h + more';
      FailureHoldsDependents(h, more', id, k, j);
      HistoryKeepsInvariant(h + more');
      FailureStaysIff(After(h + more'), e, id, k);
      DirectDependentStaysHome(After(h + more'), e, id, k, j);
    }
  }

  lemma DependentStaysHome(p: PlannerView, e: PlannerEvent, id: RunId, k: StepId, j: StepId)
    requires PlannerInv(p) && HasFailed(p, id, k) && SuccessClosed(p.runs[id])
    requires DependsOn(DepsOf(p.runs[id]), j, k)
    ensures !HandsOut(p, e, id, j)
  {
    if HandsOut(p, e, id, j) {
      ReadyIsNotBlocked(p.runs[id], j);
      assert Blocks(p.runs[id], k);
    }
  }

  /** When the results for the run answer dispatched steps, a failure strands everything that depends on
      the failed step, directly or not, until the run is retried. */
  lemma {:induction false} FailureStrandsDependents(h: seq<PlannerEvent>, more: seq<PlannerEvent>, id: RunId, k: StepId, j: StepId)
    requires PlausibleHistory(h + more) && Answered(h, more, id) && RetryFailed(id) !in more
    requires HasFailed(After(h), id, k) && SuccessClosed(After(h).runs[id]) && DependsOn(DepsOf(After(h).runs[id]), j, k)
    ensures HasFailed(After(h + more), id, k) && SuccessClosed(After(h + more).runs[id])
    ensures DepsOf(After(h + more).runs[id]) == DepsOf(After(h).runs[id])
    ensures Handouts(h + more, id, j) == Handouts(h, id, j)
  {
    if more == [] {
      assert h + more == h;
    } else {
      var more', e := more[..|more| - 1], more[|more| - 1];
      assert (h + more)[..|h + more| - 1] == h + more';
      FailureStrandsDependents(h, more', id, k, j);
      HistoryKeepsInvariant(h + more');
      FailureStaysIff(After(h + more'), e, id, k);
      EventKeepsClosure(After(h + more'), e, id);
      DependentStaysHome(After(h + more'), e, id, k, j);
    }
  }

  // ---- Stopped runs ----

  /** Nothing of the run waits to be handed out. */
  ghost predicate Drained(p: PlannerView, id: RunId) {
    id in p.runs && forall k :: k in p.runs[id].steps ==> !p.runs[id].steps[k].status.Queued?
  }

  /** The kill switch meets an active run, or a step with abort_on_fail fails. */
  ghost predicate Stops(p: PlannerView, e: PlannerEvent, id: RunId) {
    id in p.runs &&
    (|| (e.AbortAll? && p.runs[id].status.Active?)
     || (e.Report? && e.run == id && e.step in p.runs[id].steps && !e.ok && p.runs[id].steps[e.step].step.abortOnFail))
  }

  lemma StopDrains(p: PlannerView, e: PlannerEvent, id: RunId)
    requires Stops(p, e, id)
    ensures Drained(Apply(p, e), id)
  {
    if e.Report? {
      var r' := CascadeSkips(RecordResult(p.runs[id], e.step, e.ok, e.output, e.error, e.now));
      assert forall k :: k in r'.steps ==> !r'.steps[k].status.Queued?;
      assert Apply(p, e).runs[id] == Conclude(r', e.now);
    }
  }

  lemma DrainedStays(p: PlannerView, e: PlannerEvent, id: RunId)
    requires Plausible(p, e) && Drained(p, id) && e != RetryFailed(id)
    ensures Drained(Apply(p, e), id)
    ensures forall k :: !HandsOut(p, e, id, k)
  {
    forall k | IsQueued(Apply(p, e), id, k)
      ensures false
    {
      BecomesQueued(p, e, id, k);
    }
  }

  lemma {:induction false} DrainedUntilRetry(h: seq<PlannerEvent>, more: seq<PlannerEvent>, id: RunId, k: StepId)
    requires PlausibleHistory(h + more) && Drained(After(h), id) && RetryFailed(id) !in more
    ensures Drained(After(h + more), id) && Handouts(h + more, id, k) == Handouts(h, id, k)
  {
    if more == [] {
      assert h + more == h;
    } else {
      var more' := more[..|more| - 1];
      assert (h + more)[..|h + more| - 1] == h + more';
      DrainedUntilRetry(h, more', id, k);
      DrainedStays(After(h + more'), more[|more| - 1], id);
    }
  }

  /** After the kill switch or a failure with abort_on_fail no step of the run is handed out until
      the run is retried, whatever results still arrive. */
  lemma StoppedUntilRetry(h: seq<PlannerEvent>, e: PlannerEvent, more: seq<PlannerEvent>, id: RunId, k: StepId)
    requires PlausibleHistory(h + [e] + more) && Stops(After(h), e, id) && RetryFailed(id) !in more
    ensures Handouts(h + [e] + more, id, k) == Handouts(h, id, k)
  {
    assert (h + [e])[..|h + [e]| - 1] == h;
    StopDrains(After(h), e, id);
    DrainedUntilRetry(h + [e], more, id, k);
  }
}
