/** What every transition of a run keeps, and what follows from it. */
module RunProperties {
  import opened Prelude
  import opened Graphs
  import opened Scenarios
  import opened RunModel

  /** The step table is the one of a scenario that passed the acyclicity check. */
  ghost predicate WellFormed(r: RunView) {
    && UniqueIds(r.scenario.steps)
    && StepTable(r) == StepsById(r.scenario.steps)
    && EdgesInside(DepsOf(r))
    && !Cyclic(DepsOf(r))
  }

  ghost function DepsOf(r: RunView): (g: Graph<StepId>)
    ensures g.Keys == r.steps.Keys
    ensures forall k, d :: k in r.steps ==> (d in g[k] <==> d in r.steps[k].step.dependsOn)
  {
    TableGraph(StepTable(r))
  }

  /** While anything is queued, nothing has been skipped or aborted. */
  ghost predicate QueueOrDiscard(r: RunView) {
    forall j, k :: j in r.steps && k in r.steps && r.steps[j].status.Queued? ==>
      !r.steps[k].status.Skipped? && !r.steps[k].status.Aborted?
  }

  ghost predicate NeverRunning(r: RunView) {
    forall k :: k in r.steps ==> !r.steps[k].status.Running?
  }

  /** How the status of a run and the statuses of its steps hang together. */
  ghost predicate Coherent(r: RunView) {
    && (r.steps != map[] ==>
          && (r.status.Active? || r.status.Paused? <==> !r.AllTerminal())
          && (r.status.Completed? ==> !r.HasFailure())
          && (r.status.RunFailed? ==> r.HasFailure())
          && (r.status.RunAborted? ==> exists k :: k in r.steps && r.steps[k].status.Aborted?))
    && (r.steps == map[] ==> !r.status.Completed? && !r.status.RunFailed?)
    && (r.finishedAt == 0.0 <==> r.status.Active? || r.status.Paused?)
  }

  ghost predicate RunInv(r: RunView) {
    WellFormed(r) && QueueOrDiscard(r) && NeverRunning(r) && Coherent(r)
  }

  // ---- Every transition keeps the invariant ----

  lemma SameTableKeepsShape(r: RunView, r': RunView)
    requires WellFormed(r) && r'.scenario == r.scenario && StepTable(r') == StepTable(r)
    ensures WellFormed(r')
  {
  }

  lemma StartedIsQueued(id: RunId, scenario: Scenario, now: Time)
    requires UniqueIds(scenario.steps)
    ensures var r := Started(id, scenario, now);
            StepTable(r) == StepsById(scenario.steps)
            && forall k :: k in r.steps ==> r.steps[k].status.Queued?
  {
    assert StepTable(Started(id, scenario, now)) == StepsById(scenario.steps);
  }

  lemma StartedKeeps(id: RunId, scenario: Scenario, now: Time)
    requires ValidDag(scenario.steps)
    ensures RunInv(Started(id, scenario, now))
  {
    StartedIsQueued(id, scenario, now);
    ValidTable(scenario.steps);
    AllQueued(Started(id, scenario, now));
  }

  lemma AllQueued(r: RunView)
    requires r.status.Active? && r.finishedAt == 0.0
    requires forall k :: k in r.steps ==> r.steps[k].status.Queued?
    ensures QueueOrDiscard(r) && NeverRunning(r) && Coherent(r)
  {
    if r.steps != map[] {
      assert r.steps.Keys != {};
      var k :| k in r.steps.Keys;
      assert !r.steps[k].status.Terminal();
    }
  }

  lemma DispatchKeeps(r: RunView, k: StepId, agent: string, now: Time)
    requires RunInv(r) && r.status.Active? && k in r.steps && r.steps[k].status.Queued?
    ensures RunInv(DispatchStep(r, k, agent, now))
  {
    DispatchParts(r, k, agent, now);
    SameTableKeepsShape(r, DispatchStep(r, k, agent, now));
  }

  lemma DispatchParts(r: RunView, k: StepId, agent: string, now: Time)
    requires QueueOrDiscard(r) && NeverRunning(r) && Coherent(r)
    requires r.status.Active? && k in r.steps && r.steps[k].status.Queued?
    ensures var r' := DispatchStep(r, k, agent, now);
            StepTable(r') == StepTable(r) && QueueOrDiscard(r') && NeverRunning(r') && Coherent(r')
  {
    assert !DispatchStep(r, k, agent, now).steps[k].status.Terminal();
  }

  lemma ReportKeeps(r: RunView, k: StepId, ok: bool, output: string, error: Option<string>, now: Time)
    requires RunInv(r) && k in r.steps && now > 0.0
    ensures RunInv(ReportStep(r, k, ok, output, error, now))
  {
    ReportKeepsTable(r, k, ok, output, error, now);
    ReportKeepsQueue(r, k, ok, output, error, now);
    ReportKeepsCoherence(r, k, ok, output, error, now);
    SameTableKeepsShape(r, ReportStep(r, k, ok, output, error, now));
  }

  lemma ReportKeepsTable(r: RunView, k: StepId, ok: bool, output: string, error: Option<string>, now: Time)
    requires k in r.steps
    ensures StepTable(ReportStep(r, k, ok, output, error, now)) == StepTable(r)
  {
    assert StepTable(RecordResult(r, k, ok, output, error, now)) == StepTable(r);
    assert StepTable(CascadeSkips(r)) == StepTable(r);
  }

  lemma ReportKeepsQueue(r: RunView, k: StepId, ok: bool, output: string, error: Option<string>, now: Time)
    requires QueueOrDiscard(r) && NeverRunning(r) && k in r.steps
    ensures QueueOrDiscard(ReportStep(r, k, ok, output, error, now))
    ensures NeverRunning(ReportStep(r, k, ok, output, error, now))
  {
  }

  lemma ReportKeepsCoherence(r: RunView, k: StepId, ok: bool, output: string, error: Option<string>, now: Time)
    requires Coherent(r) && k in r.steps && now > 0.0
    ensures Coherent(ReportStep(r, k, ok, output, error, now))
  {
    var recorded := RecordResult(r, k, ok, output, error, now);
    var cascaded := if !ok && r.steps[k].step.abortOnFail then CascadeSkips(recorded) else recorded;
    var r' := Conclude(cascaded, now);
    assert k in r'.steps;
    if !r'.AllTerminal() {
      assert r' == cascaded;
      var j :| j in cascaded.steps && !cascaded.steps[j].status.Terminal();
      assert !r.steps[j].status.Terminal();
    }
  }

  lemma RetryKeeps(r: RunView)
    requires RunInv(r)
    ensures RunInv(RetryRun(r))
  {
    RetryParts(r);
    SameTableKeepsShape(r, RetryRun(r));
  }

  lemma RetryParts(r: RunView)
    requires QueueOrDiscard(r) && NeverRunning(r) && Coherent(r)
    ensures var r' := RetryRun(r);
            && StepTable(r') == StepTable(r) && QueueOrDiscard(r') && NeverRunning(r') && Coherent(r')
            && RetryableSteps(r') == {}
            && (RetryableSteps(r) != {} ==> r'.status.Active?)
  {
    var r' := RetryRun(r);
    if RetryableSteps(r) == {} {
      forall k | k in r.steps ensures r'.steps[k] == r.steps[k] {
        assert k !in RetryableSteps(r);
      }
      assert r'.steps == r.steps;
    } else {
      var k :| k in RetryableSteps(r);
      assert r'.steps[k].status.Queued?;
    }
  }

  lemma AbortKeeps(r: RunView, reason: string, now: Time)
    requires RunInv(r) && now > 0.0
    ensures RunInv(AbortRun(r, reason, now))
  {
    AbortParts(r, reason, now);
    SameTableKeepsShape(r, AbortRun(r, reason, now));
  }

  lemma AbortParts(r: RunView, reason: string, now: Time)
    requires QueueOrDiscard(r) && NeverRunning(r) && Coherent(r) && now > 0.0
    ensures var r' := AbortRun(r, reason, now);
            StepTable(r') == StepTable(r) && QueueOrDiscard(r') && NeverRunning(r') && Coherent(r')
  {
    var r' := AbortRun(r, reason, now);
    if r.status.Active? && r.steps != map[] {
      var k :| k in r.steps && !r.steps[k].status.Terminal();
      assert r'.steps[k].status.Aborted?;
      assert r'.AllTerminal();
    }
  }

  lemma PauseResumeKeep(r: RunView)
    requires RunInv(r)
    ensures RunInv(PauseRun(r)) && RunInv(ResumeRun(r))
  {
    SameTableKeepsShape(r, PauseRun(r));
    SameTableKeepsShape(r, ResumeRun(r));
  }

  /** The kill switch spares paused runs: it leaves something queued exactly in them. */
  lemma AbortSparesPaused(r: RunView, reason: string, now: Time, k: StepId)
    requires Coherent(r) && k in r.steps && r.steps[k].status.Queued?
    ensures AbortRun(r, reason, now).steps[k].status.Queued? <==> r.status.Paused?
    ensures r.status.Paused? ==> ResumeRun(AbortRun(r, reason, now)) == ResumeRun(r)
  {
    assert !r.steps[k].status.Terminal();
    assert !r.AllTerminal();
  }

  /** A retry starts the retryable steps over, keeps the others, and a second one adds nothing. */
  lemma RetryTwiceIsOnce(r: RunView, k: StepId)
    requires k in r.steps
    ensures RetryRun(RetryRun(r)) == RetryRun(r)
    ensures var s := RetryRun(r).steps[k]; if r.steps[k].status.Retryable() then s == FreshStep(r.steps[k].step) else s == r.steps[k]
  {
    var r' := RetryRun(r);
    assert RetryableSteps(r') == {};
    assert RetriedSteps(r') == r'.steps;
  }

  /** A result that arrives after a run has ended decides its outcome again, whatever it was:
      a run that was aborted never stays aborted. */
  lemma LateResultDecidesAgain(r: RunView, k: StepId, ok: bool, output: string, error: Option<string>, now: Time)
    requires Coherent(r) && !r.status.Active? && !r.status.Paused? && k in r.steps
    ensures var r' := ReportStep(r, k, ok, output, error, now);
            r'.status == if !ok || exists j :: j in r.steps && j != k && r.steps[j].status.Failed? then RunFailed else Completed
  {
    var recorded := RecordResult(r, k, ok, output, error, now);
    assert r.AllTerminal();
    RecordedKeepsTerminal(r, k, ok, output, error, now);
    NothingToSkip(recorded);
    assert ReportStep(r, k, ok, output, error, now) == Conclude(recorded, now);
  }

  lemma RecordedKeepsTerminal(r: RunView, k: StepId, ok: bool, output: string, error: Option<string>, now: Time)
    requires r.AllTerminal() && k in r.steps
    ensures var r' := RecordResult(r, k, ok, output, error, now);
            r'.AllTerminal() && (r'.HasFailure() <==> !ok || exists j :: j in r.steps && j != k && r.steps[j].status.Failed?)
  {
    var r' := RecordResult(r, k, ok, output, error, now);
    assert r'.steps[k].status == if ok then Success else Failed;
    assert forall j :: j in r.steps && j != k ==> r'.steps[j] == r.steps[j];
  }

  lemma NothingToSkip(r: RunView)
    requires r.AllTerminal()
    ensures CascadeSkips(r) == r
  {
    assert CascadeSkips(r).steps == r.steps;
  }

  // ---- Hand-out and progress ----

  /** At hand-out, every direct dependency has succeeded: "skipped" never satisfies one. */
  lemma ReadyMeansDependenciesSucceeded(r: RunView, k: StepId)
    requires QueueOrDiscard(r) && EdgesInside(DepsOf(r)) && k in r.steps
    ensures r.StepReady(k) <==>
              && r.steps[k].status.Queued?
              && forall d :: d in r.steps[k].step.dependsOn ==> d in r.steps && r.steps[d].status.Success?
  {
  }

  /** The step is out with an agent or has failed. */
  ghost predicate Blocks(r: RunView, d: StepId) {
    d in r.steps && (r.steps[d].status.Dispatched? || r.steps[d].status.Failed?)
  }

  /** Some dependency, direct or transitive, is out with an agent or has failed. */
  ghost predicate Blocked(r: RunView, k: StepId) {
    exists d :: Blocks(r, d) && DependsOn(DepsOf(r), k, d)
  }

  lemma BlockedByDependency(r: RunView, k: StepId, d: StepId)
    requires k in r.steps && d in r.steps[k].step.dependsOn
    requires Blocks(r, d) || Blocked(r, d)
    ensures Blocked(r, k)
  {
    var g := DepsOf(r);
    if Blocks(r, d) {
      DirectDependency(g, k, d);
    } else {
      var e :| Blocks(r, e) && DependsOn(g, d, e);
      DependencyPrepend(g, k, d, e);
    }
  }

  ghost function FreeSteps(r: RunView): set<StepId> {
    set k | k in r.steps && r.steps[k].status.Queued? && !Blocked(r, k)
  }

  /** A queued step that is neither ready nor blocked waits for another such step. */
  lemma FreeStepsWait(r: RunView, k: StepId) returns (d: StepId)
    requires QueueOrDiscard(r) && NeverRunning(r) && EdgesInside(DepsOf(r))
    requires k in FreeSteps(r) && !r.StepReady(k)
    ensures d in DepsOf(r)[k] && d in FreeSteps(r)
  {
    ReadyMeansDependenciesSucceeded(r, k);
    d :| d in r.steps[k].step.dependsOn && !(d in r.steps && r.steps[d].status.Success?);
    assert d in DepsOf(r)[k];
    if Blocks(r, d) || Blocked(r, d) {
      BlockedByDependency(r, k, d);
      assert false;
    }
  }

  /** No unexplained deadlock: when no step is ready, every queued step is blocked. */
  lemma NothingReadyMeansBlocked(r: RunView)
    requires RunInv(r)
    requires forall k :: k in r.steps ==> !r.StepReady(k)
    ensures forall k :: k in r.steps && r.steps[k].status.Queued? ==> Blocked(r, k)
  {
    var g, free := DepsOf(r), FreeSteps(r);
    if k :| k in r.steps && r.steps[k].status.Queued? && !Blocked(r, k) {
      forall k | k in free
        ensures k in g && g[k] * free != {}
      {
        var d := FreeStepsWait(r, k);
        assert d in g[k] * free;
      }
      assert k in free;
      EveryoneWaitsIsCyclic(g, free);
      assert false;
    }
  }

  /** Progress: an active run of at least one step that has neither failures nor
      outstanding steps has a step to hand out. */
  lemma ActiveRunAdvances(r: RunView) returns (k: StepId)
    requires RunInv(r) && r.status.Active? && r.steps != map[]
    requires forall j :: j in r.steps ==> !Blocks(r, j)
    ensures k in r.steps && r.StepReady(k)
  {
    if forall j :: j in r.steps ==> !r.StepReady(j) {
      NothingReadyMeansBlocked(r);
      assert false;
    }
    k :| k in r.steps && r.StepReady(k);
  }

  /** A retry of a run that has nothing outstanding always gives agents new work. */
  lemma RetryUnblocks(r: RunView) returns (k: StepId)
    requires RunInv(r) && RetryableSteps(r) != {}
    requires forall j :: j in r.steps ==> !r.steps[j].status.Dispatched?
    ensures k in r.steps && RetryRun(r).StepReady(k)
  {
    RetryKeeps(r);
    RetryParts(r);
    RetryLeavesNothingBlocking(r);
    assert RetryRun(r).steps.Keys == r.steps.Keys;
    k := ActiveRunAdvances(RetryRun(r));
  }

  lemma RetryLeavesNothingBlocking(r: RunView)
    requires forall j :: j in r.steps ==> !r.steps[j].status.Dispatched?
    ensures forall j :: j in RetryRun(r).steps ==> !Blocks(RetryRun(r), j)
    ensures RetryableSteps(r) != {} ==> RetryRun(r).steps != map[]
  {
    if k :| k in RetryableSteps(r) {
      assert k in RetryRun(r).steps;
    }
  }

  // ---- Runs whose results arrive only for outstanding steps ----

  /** Whatever is out or has succeeded rests on successes only. */
  ghost predicate SuccessClosed(r: RunView) {
    forall k, d ::
      (&& k in r.steps
       && (r.steps[k].status.Dispatched? || r.steps[k].status.Success?)
       && d in r.steps[k].step.dependsOn) ==> d in r.steps && r.steps[d].status.Success?
  }

  lemma StartedClosed(id: RunId, scenario: Scenario, now: Time)
    requires UniqueIds(scenario.steps)
    ensures SuccessClosed(Started(id, scenario, now))
  {
  }

  lemma DispatchKeepsClosure(r: RunView, k: StepId, agent: string, now: Time)
    requires SuccessClosed(r) && QueueOrDiscard(r) && EdgesInside(DepsOf(r))
    requires k in r.steps && r.StepReady(k)
    ensures SuccessClosed(DispatchStep(r, k, agent, now))
  {
    ReadyMeansDependenciesSucceeded(r, k);
  }

  lemma ReportKeepsClosure(r: RunView, k: StepId, ok: bool, output: string, error: Option<string>, now: Time)
    requires SuccessClosed(r) && k in r.steps && r.steps[k].status.Dispatched?
    ensures SuccessClosed(ReportStep(r, k, ok, output, error, now))
  {
    RecordKeepsClosure(r, k, ok, output, error, now);
    CascadeKeepsClosure(RecordResult(r, k, ok, output, error, now));
  }

  lemma RecordKeepsClosure(r: RunView, k: StepId, ok: bool, output: string, error: Option<string>, now: Time)
    requires SuccessClosed(r) && k in r.steps && r.steps[k].status.Dispatched?
    ensures SuccessClosed(RecordResult(r, k, ok, output, error, now))
  {
  }

  lemma CascadeKeepsClosure(r: RunView)
    requires SuccessClosed(r)
    ensures SuccessClosed(CascadeSkips(r))
  {
  }

  lemma RetryKeepsClosure(r: RunView)
    requires SuccessClosed(r)
    ensures SuccessClosed(RetryRun(r))
  {
  }

  lemma AbortKeepsClosure(r: RunView, reason: string, now: Time)
    requires SuccessClosed(r)
    ensures SuccessClosed(AbortRun(r, reason, now))
  {
  }

  /** Exactly which results keep the successes closed: a success for a step whose dependencies have
      succeeded, or a failure of a step that nothing dispatched or successful depends on. */
  lemma ReportKeepsClosureIff(r: RunView, k: StepId, ok: bool, output: string, error: Option<string>, now: Time)
    requires SuccessClosed(r) && k in r.steps && k !in r.steps[k].step.dependsOn
    ensures SuccessClosed(ReportStep(r, k, ok, output, error, now)) <==>
            if ok then forall d :: d in r.steps[k].step.dependsOn ==> d in r.steps && r.steps[d].status.Success?
            else forall j :: j in r.steps && j != k && (r.steps[j].status.Dispatched? || r.steps[j].status.Success?) ==>
                   k !in r.steps[j].step.dependsOn
  {
    var recorded := RecordResult(r, k, ok, output, error, now);
    RecordKeepsClosureIff(r, k, ok, output, error, now);
    SkippingIsNeutral(recorded);
  }

  lemma RecordKeepsClosureIff(r: RunView, k: StepId, ok: bool, output: string, error: Option<string>, now: Time)
    requires SuccessClosed(r) && k in r.steps && k !in r.steps[k].step.dependsOn
    ensures SuccessClosed(RecordResult(r, k, ok, output, error, now)) <==>
            if ok then forall d :: d in r.steps[k].step.dependsOn ==> d in r.steps && r.steps[d].status.Success?
            else forall j :: j in r.steps && j != k && (r.steps[j].status.Dispatched? || r.steps[j].status.Success?) ==>
                   k !in r.steps[j].step.dependsOn
  {
    var r' := RecordResult(r, k, ok, output, error, now);
    assert r'.steps[k].status == if ok then Success else Failed;
    assert forall j :: j in r.steps ==> r'.steps[j].step == r.steps[j].step;
    assert forall j :: j in r.steps && j != k ==> r'.steps[j].status == r.steps[j].status;
    if SuccessClosed(r') {
      forall d | ok && d in r.steps[k].step.dependsOn
        ensures d in r.steps && r.steps[d].status.Success?
      {
        assert d in r'.steps[k].step.dependsOn;
        assert d in r'.steps && r'.steps[d].status.Success? && d != k;
      }
      forall j | !ok && j in r.steps && j != k && (r.steps[j].status.Dispatched? || r.steps[j].status.Success?)
        ensures k !in r.steps[j].step.dependsOn
      {
        assert j in r'.steps && r'.steps[j].step == r.steps[j].step;
      }
    }
  }

  lemma SkippingIsNeutral(r: RunView)
    ensures SuccessClosed(CascadeSkips(r)) <==> SuccessClosed(r)
  {
    var r' := CascadeSkips(r);
    assert forall j :: j in r.steps ==> r'.steps[j].step == r.steps[j].step;
    assert forall j :: j in r.steps ==> (r'.steps[j].status.Success? <==> r.steps[j].status.Success?);
    assert forall j :: j in r.steps ==> (r'.steps[j].status.Dispatched? <==> r.steps[j].status.Dispatched?);
    if SuccessClosed(r') {
      forall k, d | k in r.steps && (r.steps[k].status.Dispatched? || r.steps[k].status.Success?) && d in r.steps[k].step.dependsOn
        ensures d in r.steps && r.steps[d].status.Success?
      {
        assert k in r'.steps && d in r'.steps[k].step.dependsOn;
        assert d in r'.steps && r'.steps[d].status.Success?;
      }
    }
  }

  /** Closure over direct dependencies is closure over all of them. */
  lemma ClosedIffTransitively(r: RunView)
    requires EdgesInside(DepsOf(r))
    ensures SuccessClosed(r) <==>
            forall k, d | k in r.steps && (r.steps[k].status.Success? || r.steps[k].status.Dispatched?) && DependsOn(DepsOf(r), k, d) ::
              d in r.steps && r.steps[d].status.Success?
  {
    if SuccessClosed(r) {
      forall k, d | k in r.steps && (r.steps[k].status.Success? || r.steps[k].status.Dispatched?) && DependsOn(DepsOf(r), k, d)
        ensures d in r.steps && r.steps[d].status.Success?
      {
        SuccessRestsOnSuccess(r, k, d);
      }
    } else {
      var k, d :| k in r.steps && (r.steps[k].status.Dispatched? || r.steps[k].status.Success?)
        && d in r.steps[k].step.dependsOn && !(d in r.steps && r.steps[d].status.Success?);
      DirectDependency(DepsOf(r), k, d);
    }
  }

  /** Successes are closed under transitive dependencies. */
  lemma SuccessRestsOnSuccess(r: RunView, k: StepId, d: StepId)
    requires SuccessClosed(r)
    requires k in r.steps && (r.steps[k].status.Success? || r.steps[k].status.Dispatched?)
    requires DependsOn(DepsOf(r), k, d)
    ensures d in r.steps && r.steps[d].status.Success?
  {
    var g, s := DepsOf(r), InStatus(r, Success);
    var p :| IsPath(g, p) && |p| >= 2 && p[0] == k && p[|p| - 1] == d;
    assert p[1] in g[k];
    PathTail(g, p);
    forall n | n in s && n in g ensures g[n] <= s { }
    ClosedUnderPaths(g, s, p[1..]);
  }

  /** A ready step is not blocked when results arrive only for outstanding steps. */
  lemma ReadyIsNotBlocked(r: RunView, k: StepId)
    requires QueueOrDiscard(r) && EdgesInside(DepsOf(r)) && SuccessClosed(r)
    requires k in r.steps && r.StepReady(k)
    ensures !Blocked(r, k)
  {
    if Blocked(r, k) {
      ReadyMeansDependenciesSucceeded(r, k);
      var g := DepsOf(r);
      var d :| Blocks(r, d) && DependsOn(g, k, d);
      var p :| IsPath(g, p) && |p| >= 2 && p[0] == k && p[|p| - 1] == d;
      assert p[1] in g[k];
      if |p| > 2 {
        PathTail(g, p);
        SuccessRestsOnSuccess(r, p[1], d);
      }
      assert false;
    }
  }

  /** With such results the explanation is exact: nothing is ready if and only if every
      queued step is blocked. */
  lemma NothingReadyIffBlocked(r: RunView)
    requires RunInv(r) && SuccessClosed(r)
    ensures (forall k :: k in r.steps ==> !r.StepReady(k)) <==>
            (forall k :: k in r.steps && r.steps[k].status.Queued? ==> Blocked(r, k))
  {
    if k :| k in r.steps && r.StepReady(k) {
      ReadyIsNotBlocked(r, k);
    } else {
      NothingReadyMeansBlocked(r);
    }
  }

  // ---- Termination ----

  function InStatus(r: RunView, status: StepStatus): set<StepId> {
    set k | k in r.steps && r.steps[k].status == status
  }

  /** How much work is left: a queued step still has to be handed out and reported. */
  function Weight(r: RunView): nat {
    2 * |InStatus(r, Queued)| + |InStatus(r, Dispatched)|
  }

  lemma DispatchLowersWeight(r: RunView, k: StepId, agent: string, now: Time)
    requires k in r.steps && r.steps[k].status.Queued?
    ensures Weight(DispatchStep(r, k, agent, now)) == Weight(r) - 1
  {
    var r' := DispatchStep(r, k, agent, now);
    assert InStatus(r', Queued) == InStatus(r, Queued) - {k};
    assert InStatus(r', Dispatched) == InStatus(r, Dispatched) + {k};
  }

  /** Somebody still waits and would be skipped by this result. */
  predicate Cascades(r: RunView, k: StepId, ok: bool)
    requires k in r.steps
  {
    !ok && r.steps[k].step.abortOnFail && exists j :: j in r.steps && r.steps[j].status.Queued?
  }

  lemma RecordWeighs(r: RunView, k: StepId, ok: bool, output: string, error: Option<string>, now: Time)
    requires k in r.steps
    ensures var r' := RecordResult(r, k, ok, output, error, now);
            InStatus(r', Queued) == InStatus(r, Queued) - {k} && InStatus(r', Dispatched) == InStatus(r, Dispatched) - {k}
  {
  }

  lemma CascadeWeighs(r: RunView)
    ensures InStatus(CascadeSkips(r), Queued) == {} && InStatus(CascadeSkips(r), Dispatched) == InStatus(r, Dispatched)
  {
  }

  lemma ConcludeWeighs(r: RunView, now: Time)
    ensures Weight(Conclude(r, now)) == Weight(r)
  {
    assert InStatus(Conclude(r, now), Queued) == InStatus(r, Queued);
    assert InStatus(Conclude(r, now), Dispatched) == InStatus(r, Dispatched);
  }

  /** No result, however late, raises the weight; it lowers it exactly if its step was queued or
      dispatched or it makes queued steps skipped. */
  lemma ReportLowersWeight(r: RunView, k: StepId, ok: bool, output: string, error: Option<string>, now: Time)
    requires k in r.steps
    ensures var r' := ReportStep(r, k, ok, output, error, now);
            && Weight(r') <= Weight(r)
            && (Weight(r') < Weight(r) <==>
                r.steps[k].status.Queued? || r.steps[k].status.Dispatched? || Cascades(r, k, ok))
  {
    var recorded := RecordResult(r, k, ok, output, error, now);
    var q, d := InStatus(r, Queued), InStatus(r, Dispatched);
    RecordWeighs(r, k, ok, output, error, now);
    var cascaded := if !ok && r.steps[k].step.abortOnFail then CascadeSkips(recorded) else recorded;
    if !ok && r.steps[k].step.abortOnFail {
      CascadeWeighs(recorded);
      if Cascades(r, k, ok) {
        var j :| j in r.steps && r.steps[j].status.Queued?;
        assert j in q;
      }
      if j :| j in q { assert r.steps[j].status.Queued?; }
    }
    ConcludeWeighs(cascaded, now);
    RemovedSizes(q, k);
    RemovedSizes(d, k);
  }

  lemma RemovedSizes(s: set<StepId>, k: StepId)
    ensures |s - {k}| == |s| - (if k in s then 1 else 0)
  {
    if k !in s { assert s - {k} == s; }
  }
}
