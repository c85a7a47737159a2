/** Total correctness for every schedule: any number of agents, any interleaving of hand-outs and
    results, any other runs beside the one considered. */
module Schedules {
  import opened Prelude
  import opened Graphs
  import opened Scenarios
  import opened RunModel
  import opened RunProperties
  import opened PlannerModel
  import opened Completion

  // ---- What can go wrong for a run ----

  /** The kill switch meets the run while it is active, or a step of the run fails. */
  ghost predicate Disturbs(p: PlannerView, e: PlannerEvent, id: RunId) {
    || (e.AbortAll? && id in p.runs && p.runs[id].status.Active?)
    || (e.Report? && e.run == id && !e.ok)
  }

  ghost predicate Undisturbed(h: seq<PlannerEvent>, more: seq<PlannerEvent>, id: RunId) {
    more != [] ==>
      && Undisturbed(h, more[..|more| - 1], id)
      && !Disturbs(After(h + more[..|more| - 1]), more[|more| - 1], id)
  }

  /** Every step waits, is out with an agent, or has succeeded. */
  ghost predicate Unfailing(r: RunView) {
    forall k :: k in r.steps ==> r.steps[k].status.Queued? || r.steps[k].status.Dispatched? || r.steps[k].status.Success?
  }

  /** Hand-outs of any step of the run. */
  ghost predicate HandsOutFrom(p: PlannerView, e: PlannerEvent, id: RunId) {
    e.NextTask? && Task(p, e.platform).Some? && Task(p, e.platform).value.0 == id
  }

  ghost function RunHandouts(h: seq<PlannerEvent>, id: RunId): nat {
    if h == [] then 0
    else RunHandouts(h[..|h| - 1], id) + if HandsOutFrom(After(h[..|h| - 1]), h[|h| - 1], id) then 1 else 0
  }

  // ---- One event ----

  lemma SuccessKeepsUnfailing(r: RunView, k: StepId, output: string, error: Option<string>, now: Time)
    requires Unfailing(r) && k in r.steps && r.steps[k].status.Dispatched?
    ensures var r' := ReportStep(r, k, true, output, error, now);
            && Unfailing(r') && r'.steps.Keys == r.steps.Keys
            && InStatus(r', Queued) == InStatus(r, Queued) && Weight(r') == Weight(r) - 1
  {
    var recorded := RecordResult(r, k, true, output, error, now);
    RecordKeepsUnfailing(r, k, output, error, now);
    SameStepsSameSets(recorded, Conclude(recorded, now));
  }

  lemma RecordKeepsUnfailing(r: RunView, k: StepId, output: string, error: Option<string>, now: Time)
    requires Unfailing(r) && k in r.steps && r.steps[k].status.Dispatched?
    ensures var r' := RecordResult(r, k, true, output, error, now);
            && Unfailing(r') && r'.steps.Keys == r.steps.Keys
            && InStatus(r', Queued) == InStatus(r, Queued) && Weight(r') == Weight(r) - 1
  {
    var r' := RecordResult(r, k, true, output, error, now);
    assert forall j :: j in r.steps && j != k ==> r'.steps[j] == r.steps[j];
    assert InStatus(r', Dispatched) == InStatus(r, Dispatched) - {k};
    assert InStatus(r', Queued) == InStatus(r, Queued);
  }

  lemma DispatchKeepsUnfailing(r: RunView, k: StepId, agent: string, now: Time)
    requires Unfailing(r) && k in r.steps && r.steps[k].status.Queued?
    ensures var r' := DispatchStep(r, k, agent, now);
            && Unfailing(r') && r'.steps.Keys == r.steps.Keys
            && |InStatus(r', Queued)| == |InStatus(r, Queued)| - 1 && Weight(r') == Weight(r) - 1
  {
    var r' := DispatchStep(r, k, agent, now);
    DispatchLowersWeight(r, k, agent, now);
    assert InStatus(r', Queued) == InStatus(r, Queued) - {k};
  }

  /** Pauses, resumes, retries and other runs' events leave the steps of an unfailing run alone. */
  lemma OtherEventsKeepSteps(p: PlannerView, e: PlannerEvent, id: RunId)
    requires Plausible(p, e) && id in p.runs && Unfailing(p.runs[id])
    requires !Disturbs(p, e, id) && !Moves(p, e, id)
    ensures id in Apply(p, e).runs && Apply(p, e).runs[id].steps == p.runs[id].steps
  {
    if e == RetryFailed(id) {
      assert RetriedSteps(p.runs[id]) == p.runs[id].steps;
    }
  }

  /** One event of an undisturbed run: a move lowers the weight by exactly one, a hand-out takes one
      step from the queue, and nothing else changes the steps. */
  lemma EventKeepsUnfailing(p: PlannerView, e: PlannerEvent, id: RunId)
    requires Plausible(p, e) && Answers(p, e, id) && !Disturbs(p, e, id)
    requires id in p.runs && Unfailing(p.runs[id])
    ensures id in Apply(p, e).runs
    ensures var r, r' := p.runs[id], Apply(p, e).runs[id];
            && Unfailing(r') && r'.steps.Keys == r.steps.Keys
            && Weight(r') == Weight(r) - (if Moves(p, e, id) then 1 else 0)
            && |InStatus(r', Queued)| == |InStatus(r, Queued)| - (if HandsOutFrom(p, e, id) then 1 else 0)
  {
    if HandsOutFrom(p, e, id) {
      DispatchKeepsUnfailing(p.runs[id], Task(p, e.platform).value.1, e.agent, e.now);
    } else if Moves(p, e, id) {
      SuccessKeepsUnfailing(p.runs[id], e.step, e.output, e.error, e.now);
    } else {
      OtherEventsKeepSteps(p, e, id);
      SameStepsSameSets(p.runs[id], Apply(p, e).runs[id]);
    }
  }

  lemma SameStepsSameSets(r: RunView, r': RunView)
    requires r'.steps == r.steps
    ensures InStatus(r', Queued) == InStatus(r, Queued) && Weight(r') == Weight(r)
  {
    assert InStatus(r', Dispatched) == InStatus(r, Dispatched);
  }

  // ---- Histories ----

  /** However agents interleave and other runs are treated, hand-outs and queued steps add up, and so do moves and weight. */
  lemma {:induction false} ScheduleConserves(h: seq<PlannerEvent>, more: seq<PlannerEvent>, id: RunId)
    requires PlausibleHistory(h + more) && Answered(h, more, id) && Undisturbed(h, more, id)
    requires id in After(h).runs && Unfailing(After(h).runs[id])
    ensures id in After(h + more).runs
    ensures var r, r' := After(h).runs[id], After(h + more).runs[id];
            && Unfailing(r') && r'.steps.Keys == r.steps.Keys
            && RunHandouts(h + more, id) + |InStatus(r', Queued)| == RunHandouts(h, id) + |InStatus(r, Queued)|
            && MoveCount(h + more, id) + Weight(r') == MoveCount(h, id) + Weight(r)
  {
    if more == [] {
      assert h + more == h;
    } else {
      var more', e := more[..|more| - 1], more[|more| - 1];
      assert (h + more)[..|h + more| - 1] == h + more';
      ScheduleConserves(h, more', id);
      EventKeepsUnfailing(After(h + more'), e, id);
    }
  }

  /** An unfailing run has no work left exactly when it is completed with all steps successful. */
  lemma DoneIffSucceeded(r: RunView)
    requires Coherent(r) && Unfailing(r) && r.steps != map[]
    ensures Weight(r) == 0 <==> AllSucceeded(r)
    ensures r.status.Active? || r.status.Paused? || AllSucceeded(r)
  {
    if Weight(r) == 0 {
      forall k | k in r.steps ensures r.steps[k].status.Success? {
        assert k !in InStatus(r, Queued) && k !in InStatus(r, Dispatched);
      }
    }
    if AllSucceeded(r) {
      assert InStatus(r, Queued) == {} && InStatus(r, Dispatched) == {};
    }
    if !r.status.Active? && !r.status.Paused? {
      forall k | k in r.steps ensures r.steps[k].status.Success? {
        assert r.steps[k].status.Terminal();
      }
    }
  }

  /** An active run that is not done either waits for an agent's result or has a task for every
      agent of its platform: no schedule gets stuck. */
  lemma NeverStuck(p: PlannerView, id: RunId, platform: string)
    requires PlannerInv(p) && id in p.runs && Serves(p.runs[id], Lower(platform))
    requires Unfailing(p.runs[id]) && p.runs[id].steps != map[] && InStatus(p.runs[id], Dispatched) == {}
    ensures Task(p, platform).Some?
  {
    var r := p.runs[id];
    forall k | k in r.steps ensures !Blocks(r, k) {
      assert k !in InStatus(r, Dispatched);
    }
    var k := ActiveRunAdvances(r);
    NoReadyStep(r);
    assert id in Elements(p.order);
  }

  // ---- A fresh scenario under every schedule ----

  lemma {:induction false} UnknownRunIdle(h: seq<PlannerEvent>, id: RunId)
    requires PlausibleHistory(h) && id !in After(h).runs
    ensures MoveCount(h, id) == WorkCount(h, id) == 0 && RunHandouts(h, id) == 0
  {
    if h != [] {
      var h', e := h[..|h| - 1], h[|h| - 1];
      RunsStay(After(h'), e, id);
      UnknownRunIdle(h', id);
    }
  }

  lemma RunsStay(p: PlannerView, e: PlannerEvent, id: RunId)
    ensures id in p.runs ==> id in Apply(p, e).runs
  {
  }

  /** What a fresh run starts with. */
  lemma FreshStart(h: seq<PlannerEvent>, id: RunId, scenario: Scenario, now: Time)
    requires PlausibleHistory(h + [StartRun(id, scenario, now)]) && ValidDag(scenario.steps)
    ensures var h1 := h + [StartRun(id, scenario, now)];
            && id in After(h1).runs && After(h1).runs[id] == Started(id, scenario, now)
            && Unfailing(After(h1).runs[id]) && MoveCount(h1, id) == WorkCount(h1, id) == 0 && RunHandouts(h1, id) == 0
            && |InStatus(After(h1).runs[id], Queued)| == |scenario.steps| && Weight(After(h1).runs[id]) == 2 * |scenario.steps|
  {
    var h1 := h + [StartRun(id, scenario, now)];
    assert h1[..|h1| - 1] == h;
    UnknownRunIdle(h, id);
    var r := Started(id, scenario, now);
    StartedIsQueued(id, scenario, now);
    FreshWeight(id, scenario, now);
    FreshStepCount(id, scenario, now);
    assert InStatus(r, Queued) == r.steps.Keys;
  }

  /** Until it is retried a run of n steps takes at most 2n moves that are not idle results, in every
      history, and at most 2n moves at all when the results for it answer dispatched steps. */
  lemma FreshMovesBounded(h: seq<PlannerEvent>, id: RunId, scenario: Scenario, now: Time, more: seq<PlannerEvent>)
    requires PlausibleHistory(h + [StartRun(id, scenario, now)] + more) && ValidDag(scenario.steps)
    requires RetryFailed(id) !in more
    ensures var h1 := h + [StartRun(id, scenario, now)];
            && WorkCount(h1 + more, id) <= 2 * |scenario.steps|
            && (Answered(h1, more, id) ==> MoveCount(h1 + more, id) <= 2 * |scenario.steps|)
  {
    var h1 := h + [StartRun(id, scenario, now)];
    PlausiblePrefix(h1, more);
    FreshStart(h, id, scenario, now);
    MovesBounded(h1, more, id);
    if Answered(h1, more, id) { AnsweredMovesBounded(h1, more, id); }
  }

  lemma {:induction false} PlausiblePrefix(h: seq<PlannerEvent>, more: seq<PlannerEvent>)
    requires PlausibleHistory(h + more)
    ensures PlausibleHistory(h)
  {
    if more == [] {
      assert h + more == h;
    } else {
      assert (h + more)[..|h + more| - 1] == h + more[..|more| - 1];
      PlausiblePrefix(h, more[..|more| - 1]);
    }
  }

  /** The state of an undisturbed run of n steps whose results answer dispatched steps, whatever the
      schedule and whatever happens to other runs: it is running, paused or
      done; n minus the queued steps have been handed out; it is done exactly after 2n moves, n of
      them hand-outs; and as long as it is active and not done, either a result is outstanding or
      the next agent of its platform gets a task. */
  lemma EveryScheduleCompletes(h: seq<PlannerEvent>, id: RunId, scenario: Scenario, now: Time, more: seq<PlannerEvent>,
                               platform: string)
    requires ValidDag(scenario.steps) && scenario.steps != []
    requires PlausibleHistory(h + [StartRun(id, scenario, now)] + more)
    requires Answered(h + [StartRun(id, scenario, now)], more, id) && Undisturbed(h + [StartRun(id, scenario, now)], more, id)
    ensures var all, n := h + [StartRun(id, scenario, now)] + more, |scenario.steps|;
            && id in After(all).runs
            && (var p, r := After(all), After(all).runs[id];
                && (r.status.Active? || r.status.Paused? || AllSucceeded(r))
                && RunHandouts(all, id) + |InStatus(r, Queued)| == n
                && MoveCount(all, id) + Weight(r) == 2 * n
                && (AllSucceeded(r) <==> MoveCount(all, id) == 2 * n)
                && (AllSucceeded(r) ==> RunHandouts(all, id) == n)
                && (Serves(r, Lower(platform)) && InStatus(r, Dispatched) == {} ==> Task(p, platform).Some?))
  {
    var h1 := h + [StartRun(id, scenario, now)];
    var all, n := h1 + more, |scenario.steps|;
    PlausiblePrefix(h1, more);
    FreshStart(h, id, scenario, now);
    ScheduleConserves(h1, more, id);
    HistoryKeepsInvariant(all);
    var r := After(all).runs[id];
    HasSteps(scenario, id, now);
    assert r.steps.Keys != {};
    DoneIffSucceeded(r);
    if AllSucceeded(r) {
      assert InStatus(r, Queued) == {};
    }
    if Serves(r, Lower(platform)) && InStatus(r, Dispatched) == {} {
      NeverStuck(After(all), id, platform);
    }
  }

  lemma HasSteps(scenario: Scenario, id: RunId, now: Time)
    requires UniqueIds(scenario.steps) && scenario.steps != []
    ensures Started(id, scenario, now).steps.Keys != {}
  {
    FreshStepCount(id, scenario, now);
  }
}
