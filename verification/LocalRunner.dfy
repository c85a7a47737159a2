/** The offline runner of the agent: executes every step of a scenario in dependency order. */
module LocalRunner {
  import opened Graphs
  import opened Scenarios

  /** What running a step's technique comes to; a technique may not be registered. */
  datatype Outcome = Unregistered | Finished(ok: bool)

  function Succeeded(o: Outcome): bool {
    o.Finished? && o.ok
  }

  /** Removes the first occurrence. */
  function Remove<T(==,!new)>(s: seq<T>, x: T): (r: seq<T>)
    requires NoDuplicates(s)
    ensures NoDuplicates(r) && forall y :: y in r <==> y in s && y != x
    ensures x in s ==> |r| == |s| - 1
  {
    if s == [] then []
    else if s[0] == x then s[1..]
    else
      var r := Remove(s[1..], x);
      assert s[0] !in s[1..] && s[0] !in r;
      assert forall y :: y in s <==> y == s[0] || y in s[1..];
      [s[0]] + r
  }

  predicate DepsDone(s: ScenarioStep, completed: set<StepId>) {
    forall d :: d in s.dependsOn ==> d in completed
  }

  /** The remaining steps that wait for nothing, in their order. */
  function ReadySteps(remaining: seq<ScenarioStep>, completed: set<StepId>): (r: seq<ScenarioStep>)
    requires NoDuplicates(remaining)
    ensures NoDuplicates(r) && forall s :: s in r <==> s in remaining && DepsDone(s, completed)
  {
    if remaining == [] then []
    else if DepsDone(remaining[0], completed) then [remaining[0]] + ReadySteps(remaining[1..], completed)
    else ReadySteps(remaining[1..], completed)
  }

  /** Every step is either handled, after all its dependencies, or remains. */
  ghost predicate Running(steps: seq<ScenarioStep>, remaining: seq<ScenarioStep>, order: seq<StepId>) {
    && NoDuplicates(remaining) && NoDuplicates(order)
    && (forall s :: s in remaining ==> s in steps && s.id !in order)
    && (forall s :: s in steps ==> s in remaining || s.id in order)
    && (forall k :: k in order ==> exists s :: s in steps && s.id == k)
    && (forall i, s :: 0 <= i < |order| && s in steps && s.id == order[i] ==>
          forall d :: d in s.dependsOn ==> d in order[..i])
  }

  /** What holds whenever a step is about to be handled. */
  ghost predicate Consistent(steps: seq<ScenarioStep>, remaining: seq<ScenarioStep>, completed: set<StepId>,
                             results: map<StepId, bool>, order: seq<StepId>, outcome: ScenarioStep -> Outcome) {
    && Running(steps, remaining, order)
    && completed == Elements(order)
    && Recorded(steps, results, order, outcome)
  }

  /** Every step was handled exactly once and after its dependencies, and has its result. */
  ghost predicate Complete(steps: seq<ScenarioStep>, results: map<StepId, bool>, order: seq<StepId>, outcome: ScenarioStep -> Outcome)
    requires UniqueIds(steps)
  {
    && TopologicalOrder(DependencyGraph(steps), order)
    && |results| == |steps|
    && forall s :: s in steps ==> s.id in results && results[s.id] == Succeeded(outcome(s))
  }

  /** Runs a scenario: the deadlock message appears exactly for invalid scenarios, and
      otherwise every step is handled. */
  method RunLocal(scenario: Scenario, outcome: ScenarioStep -> Outcome)
    returns (results: map<StepId, bool>, deadlock: bool, ghost order: seq<StepId>)
    requires UniqueIds(scenario.steps)
    ensures deadlock <==> !ValidDag(scenario.steps)
    ensures !deadlock ==> Complete(scenario.steps, results, order, outcome)
  {
    results, deadlock, order := RunRounds(scenario.steps, outcome);
    if !deadlock {
      AllHandled(scenario.steps, order);
      ResultsComplete(scenario.steps, results, order, outcome);
    }
  }

  /** The loop: rounds of ready steps until nothing remains or nothing is ready. `order`
      lists the steps as they were handled. */
  method RunRounds(steps: seq<ScenarioStep>, outcome: ScenarioStep -> Outcome)
    returns (results: map<StepId, bool>, deadlock: bool, ghost order: seq<StepId>)
    requires UniqueIds(steps)
    ensures deadlock ==> !ValidDag(steps)
    ensures !deadlock ==> Running(steps, [], order) && Recorded(steps, results, order, outcome)
  {
    var remaining, completed := steps, {};
    results, order := map[], [];
    StartConsistent(steps, outcome);
    while remaining != []
      invariant Consistent(steps, remaining, completed, results, order, outcome)
      decreases |remaining|
    {
      var ready := ReadySteps(remaining, completed);
      if ready == [] {
        DeadlockMeansInvalid(steps, remaining, order);
        return results, true, order;
      }
      remaining, completed, results, order := RunRound(steps, outcome, ready, remaining, completed, results, order);
    }
    return results, false, order;
  }

  lemma StartConsistent(steps: seq<ScenarioStep>, outcome: ScenarioStep -> Outcome)
    requires UniqueIds(steps)
    ensures Consistent(steps, steps, {}, map[], [], outcome)
  {
    DistinctSteps(steps);
  }

  /** The step fails and asks for an abort. */
  predicate Aborts(step: ScenarioStep, outcome: ScenarioStep -> Outcome) {
    outcome(step) == Finished(false) && step.abortOnFail
  }

  /** How many of the ready steps a round handles: up to and including the first one, at or after `i`, that
      fails with abort_on_fail. */
  function RoundLength(ready: seq<ScenarioStep>, i: nat, outcome: ScenarioStep -> Outcome): (n: nat)
    requires i <= |ready|
    ensures i <= n <= |ready| && (i < |ready| ==> i < n)
    ensures forall m :: i <= m < n - 1 ==> !Aborts(ready[m], outcome)
    ensures n < |ready| ==> Aborts(ready[n - 1], outcome)
    decreases |ready| - i
  {
    if i == |ready| then i else if Aborts(ready[i], outcome) then i + 1 else RoundLength(ready, i + 1, outcome)
  }

  /** Handles the ready steps of one round. A failure with abort_on_fail ends the round, not the run. */
  method RunRound(steps: seq<ScenarioStep>, outcome: ScenarioStep -> Outcome, ready: seq<ScenarioStep>,
                  remaining0: seq<ScenarioStep>, completed0: set<StepId>, results0: map<StepId, bool>, ghost order0: seq<StepId>)
    returns (remaining: seq<ScenarioStep>, completed: set<StepId>, results: map<StepId, bool>, ghost order: seq<StepId>)
    requires UniqueIds(steps) && Consistent(steps, remaining0, completed0, results0, order0, outcome)
    requires ready != [] && NoDuplicates(ready)
    requires forall m :: 0 <= m < |ready| ==> ready[m] in remaining0 && DepsDone(ready[m], completed0)
    ensures Consistent(steps, remaining, completed, results, order, outcome)
    ensures completed == completed0 + Elements(StepIds(ready[..RoundLength(ready, 0, outcome)]))
    ensures |remaining| == |remaining0| - RoundLength(ready, 0, outcome)
    ensures order == order0 + StepIds(ready[..RoundLength(ready, 0, outcome)])
  {
    remaining, completed, results, order := remaining0, completed0, results0, order0;
    for j := 0 to |ready|
      invariant Consistent(steps, remaining, completed, results, order, outcome)
      invariant |remaining| == |remaining0| - j && order == order0 + StepIds(ready[..j])
      invariant RoundLength(ready, j, outcome) == RoundLength(ready, 0, outcome)
      invariant forall m :: j <= m < |ready| ==> ready[m] in remaining && DepsDone(ready[m], completed)
    {
      var aborted;
      remaining, completed, results, order, aborted := RunStep(steps, outcome, ready[j], remaining, completed, results, order);
      PrefixIds(ready, j);
      if aborted {
        CompletedGrew(order0, StepIds(ready[..j + 1]));
        return;
      }
    }
    assert ready[..|ready|] == ready;
    CompletedGrew(order0, StepIds(ready));
  }

  lemma CompletedGrew(order: seq<StepId>, more: seq<StepId>)
    ensures Elements(order + more) == Elements(order) + Elements(more)
  {
  }

  lemma PrefixIds(steps: seq<ScenarioStep>, j: nat)
    requires j < |steps|
    ensures StepIds(steps[..j + 1]) == StepIds(steps[..j]) + [steps[j].id]
  {
  }

  /** Handles one ready step. */
  method RunStep(steps: seq<ScenarioStep>, outcome: ScenarioStep -> Outcome, step: ScenarioStep,
                 remaining0: seq<ScenarioStep>, completed0: set<StepId>, results0: map<StepId, bool>, ghost order0: seq<StepId>)
    returns (remaining: seq<ScenarioStep>, completed: set<StepId>, results: map<StepId, bool>, ghost order: seq<StepId>, aborted: bool)
    requires UniqueIds(steps) && Consistent(steps, remaining0, completed0, results0, order0, outcome)
    requires step in remaining0 && DepsDone(step, completed0)
    ensures Consistent(steps, remaining, completed, results, order, outcome)
    ensures |remaining| == |remaining0| - 1 && forall s :: s in remaining <==> s in remaining0 && s != step
    ensures completed == completed0 + {step.id} && order == order0 + [step.id]
    ensures aborted == Aborts(step, outcome)
  {
    var o := outcome(step);
    HandleStep(steps, remaining0, completed0, results0, order0, outcome, step);
    results := results0[step.id := Succeeded(o)];
    completed := completed0 + {step.id};
    remaining := Remove(remaining0, step);
    order := order0 + [step.id];
    aborted := o == Finished(false) && step.abortOnFail;
  }

  lemma HandleStep(steps: seq<ScenarioStep>, remaining: seq<ScenarioStep>, completed: set<StepId>,
                   results: map<StepId, bool>, order: seq<StepId>, outcome: ScenarioStep -> Outcome, step: ScenarioStep)
    requires UniqueIds(steps) && Consistent(steps, remaining, completed, results, order, outcome)
    requires step in remaining && DepsDone(step, completed)
    ensures Consistent(steps, Remove(remaining, step), completed + {step.id},
                       results[step.id := Succeeded(outcome(step))], order + [step.id], outcome)
  {
    Handle(steps, remaining, order, step);
    RecordOne(steps, results, order, outcome, step);
    assert Elements(order + [step.id]) == Elements(order) + {step.id};
  }

  /** The results so far are those of the handled steps. */
  ghost predicate Recorded(steps: seq<ScenarioStep>, results: map<StepId, bool>, order: seq<StepId>, outcome: ScenarioStep -> Outcome) {
    && results.Keys == Elements(order)
    && forall s :: s in steps && s.id in order ==> s.id in results && results[s.id] == Succeeded(outcome(s))
  }

  lemma SameIdSameStep(steps: seq<ScenarioStep>, s: ScenarioStep, t: ScenarioStep)
    requires UniqueIds(steps) && s in steps && t in steps && s.id == t.id
    ensures s == t
  {
    var i :| 0 <= i < |steps| && steps[i] == s;
    var j :| 0 <= j < |steps| && steps[j] == t;
    assert StepIds(steps)[i] == StepIds(steps)[j];
  }

  lemma DistinctSteps(steps: seq<ScenarioStep>)
    requires UniqueIds(steps)
    ensures NoDuplicates(steps)
  {
    forall i, j | 0 <= i < j < |steps|
      ensures steps[i] != steps[j]
    {
      assert StepIds(steps)[i] != StepIds(steps)[j];
    }
  }

  lemma Handle(steps: seq<ScenarioStep>, remaining: seq<ScenarioStep>, order: seq<StepId>, step: ScenarioStep)
    requires UniqueIds(steps) && Running(steps, remaining, order)
    requires step in remaining && DepsDone(step, Elements(order))
    ensures Running(steps, Remove(remaining, step), order + [step.id])
  {
    var order' := order + [step.id];
    forall s | s in remaining && s != step
      ensures s.id !in order'
    {
      if s.id == step.id { SameIdSameStep(steps, s, step); }
    }
    forall i, s | 0 <= i < |order'| && s in steps && s.id == order'[i]
      ensures forall d :: d in s.dependsOn ==> d in order'[..i]
    {
      if i < |order| {
        assert order'[..i] == order[..i];
      } else {
        assert order'[..i] == order;
        SameIdSameStep(steps, s, step);
      }
    }
  }

  lemma RecordOne(steps: seq<ScenarioStep>, results: map<StepId, bool>, order: seq<StepId>, outcome: ScenarioStep -> Outcome, step: ScenarioStep)
    requires UniqueIds(steps) && step in steps && Recorded(steps, results, order, outcome)
    ensures Recorded(steps, results[step.id := Succeeded(outcome(step))], order + [step.id], outcome)
  {
    forall s | s in steps && s.id == step.id
      ensures s == step
    {
      SameIdSameStep(steps, s, step);
    }
    assert Elements(order + [step.id]) == Elements(order) + {step.id};
  }

  lemma DeadlockMeansInvalid(steps: seq<ScenarioStep>, remaining: seq<ScenarioStep>, order: seq<StepId>)
    requires UniqueIds(steps) && Running(steps, remaining, order)
    requires remaining != [] && ReadySteps(remaining, Elements(order)) == []
    ensures !ValidDag(steps)
  {
    if ReferencesExist(steps) {
      var g := DependencyGraph(steps);
      var waiting := set s | s in remaining :: s.id;
      assert remaining[0].id in waiting;
      forall n | n in waiting
        ensures n in g && g[n] * waiting != {}
      {
        var s :| s in remaining && s.id == n;
        assert s !in ReadySteps(remaining, Elements(order));
        var d :| d in s.dependsOn && d !in Elements(order);
        WaitsFor(steps, remaining, order, s, d);
      }
      EveryoneWaitsIsCyclic(g, waiting);
    }
  }

  lemma WaitsFor(steps: seq<ScenarioStep>, remaining: seq<ScenarioStep>, order: seq<StepId>, s: ScenarioStep, d: StepId)
    requires UniqueIds(steps) && Running(steps, remaining, order) && ReferencesExist(steps)
    requires s in remaining && d in s.dependsOn && d !in order
    ensures var g := DependencyGraph(steps); s.id in g && d in g[s.id] * set t | t in remaining :: t.id
  {
    GraphAt(steps, s);
    var t := StepNamed(steps, s, d);
    assert t in remaining;
  }

  lemma GraphAt(steps: seq<ScenarioStep>, s: ScenarioStep)
    requires UniqueIds(steps) && s in steps
    ensures var g := DependencyGraph(steps); s.id in g && g[s.id] == Elements(s.dependsOn)
  {
    var i :| 0 <= i < |steps| && steps[i] == s;
    assert steps[i].id in DependencyGraph(steps);
  }

  lemma StepNamed(steps: seq<ScenarioStep>, s: ScenarioStep, d: StepId) returns (t: ScenarioStep)
    requires ReferencesExist(steps) && s in steps && d in s.dependsOn
    ensures t in steps && t.id == d
  {
    var i :| 0 <= i < |steps| && steps[i] == s;
    assert d in StepIds(steps);
    var j :| 0 <= j < |steps| && StepIds(steps)[j] == d;
    t := steps[j];
  }

  lemma AllHandled(steps: seq<ScenarioStep>, order: seq<StepId>)
    requires UniqueIds(steps) && Running(steps, [], order)
    ensures ValidDag(steps) && TopologicalOrder(DependencyGraph(steps), order)
  {
    HandledAreIds(steps, order);
    HandledReferencesExist(steps, order);
    HandledInOrder(steps, order);
    OrderedIsAcyclic(DependencyGraph(steps), order);
  }

  lemma HandledAreIds(steps: seq<ScenarioStep>, order: seq<StepId>)
    requires Running(steps, [], order)
    ensures Elements(order) == Elements(StepIds(steps))
  {
    var ids := StepIds(steps);
    forall k
      ensures k in order <==> k in ids
    {
      if k in order {
        var s :| s in steps && s.id == k;
        var i :| 0 <= i < |steps| && steps[i] == s;
        assert ids[i] == k;
      }
      if k in ids {
        var i :| 0 <= i < |ids| && ids[i] == k;
        assert steps[i] in steps;
      }
    }
  }

  lemma HandledReferencesExist(steps: seq<ScenarioStep>, order: seq<StepId>)
    requires Running(steps, [], order) && Elements(order) == Elements(StepIds(steps))
    ensures ReferencesExist(steps)
  {
    forall i, d | 0 <= i < |steps| && d in steps[i].dependsOn
      ensures d in StepIds(steps)
    {
      assert steps[i] in steps;
      var j :| 0 <= j < |order| && order[j] == steps[i].id;
      assert d in order[..j];
      assert d in Elements(order);
    }
  }

  lemma HandledInOrder(steps: seq<ScenarioStep>, order: seq<StepId>)
    requires UniqueIds(steps) && Running(steps, [], order)
    ensures forall i :: 0 <= i < |order| ==> ComesAfter(DependencyGraph(steps), order, i)
  {
    var g := DependencyGraph(steps);
    forall i | 0 <= i < |order|
      ensures ComesAfter(g, order, i)
    {
      assert order[i] in order;
      var s :| s in steps && s.id == order[i];
      var j :| 0 <= j < |steps| && steps[j] == s;
      assert g[s.id] == Elements(s.dependsOn);
    }
  }

  lemma ResultsComplete(steps: seq<ScenarioStep>, results: map<StepId, bool>, order: seq<StepId>, outcome: ScenarioStep -> Outcome)
    requires UniqueIds(steps) && Running(steps, [], order) && Recorded(steps, results, order, outcome)
    ensures |results| == |steps|
    ensures forall s :: s in steps ==> s.id in results && results[s.id] == Succeeded(outcome(s))
  {
    HandledAreIds(steps, order);
    DistinctCount(StepIds(steps));
    assert |results| == |results.Keys|;
  }
}
