/** The scenario language: steps, their dependencies and the acyclicity check that
    every run relies on. */
module Scenarios {
  import opened Graphs

  type StepId = string

  datatype ScenarioStep = ScenarioStep(
    id: StepId,
    ttp: string,
    dependsOn: seq<StepId>,
    timeoutSeconds: int,
    abortOnFail: bool)

  datatype Scenario = Scenario(name: string, targetPlatforms: seq<string>, steps: seq<ScenarioStep>)

  /** The outcome of the check: a normal return, or one of its two errors. */
  datatype DagCheck = DagOk | UnknownDependency(step: StepId, dependency: StepId) | CycleDetected

  function StepIds(steps: seq<ScenarioStep>): seq<StepId> {
    seq(|steps|, i requires 0 <= i < |steps| => steps[i].id)
  }

  /** Scenarios are only ever built with pairwise distinct step ids. */
  predicate UniqueIds(steps: seq<ScenarioStep>) {
    NoDuplicates(StepIds(steps))
  }

  /** The validator compares the number of ids with the number of distinct ids. */
  predicate AcceptsStepIds(steps: seq<ScenarioStep>) {
    |StepIds(steps)| == |Elements(StepIds(steps))|
  }

  lemma {:induction false} DistinctCount<T>(s: seq<T>)
    ensures |Elements(s)| <= |s|
    ensures |Elements(s)| == |s| <==> NoDuplicates(s)
  {
    if s != [] {
      var last := |s| - 1;
      DistinctCount(s[..last]);
      assert s == s[..last] + [s[last]];
      assert Elements(s) == Elements(s[..last]) + {s[last]};
      if s[last] in s[..last] {
        assert Elements(s) == Elements(s[..last]);
      }
    }
  }

  lemma AcceptsStepIdsIffUnique(steps: seq<ScenarioStep>)
    ensures AcceptsStepIds(steps) <==> UniqueIds(steps)
  {
    DistinctCount(StepIds(steps));
  }

  ghost predicate ReferencesExist(steps: seq<ScenarioStep>) {
    forall i, d :: 0 <= i < |steps| && d in steps[i].dependsOn ==> d in StepIds(steps)
  }

  /** The graph that the check starts from. */
  function DependencyGraph(steps: seq<ScenarioStep>): (g: Graph<StepId>)
    requires UniqueIds(steps)
    ensures g.Keys == Elements(StepIds(steps))
    ensures forall i :: 0 <= i < |steps| ==> steps[i].id in g && g[steps[i].id] == Elements(steps[i].dependsOn)
  {
    var ids := StepIds(steps);
    map i | 0 <= i < |steps| :: ids[i] := Elements(steps[i].dependsOn)
  }

  ghost predicate ValidDag(steps: seq<ScenarioStep>) {
    UniqueIds(steps) && ReferencesExist(steps) && !Cyclic(DependencyGraph(steps))
  }

  /** The steps by id. */
  function StepsById(steps: seq<ScenarioStep>): (t: map<StepId, ScenarioStep>)
    requires UniqueIds(steps)
    ensures t.Keys == Elements(StepIds(steps))
    ensures forall i :: 0 <= i < |steps| ==> steps[i].id in t && t[steps[i].id] == steps[i]
  {
    var ids := StepIds(steps);
    map i | 0 <= i < |steps| :: ids[i] := steps[i]
  }

  function TableGraph(t: map<StepId, ScenarioStep>): Graph<StepId> {
    map k | k in t :: Elements(t[k].dependsOn)
  }

  lemma ValidTable(steps: seq<ScenarioStep>)
    requires ValidDag(steps)
    ensures TableGraph(StepsById(steps)) == DependencyGraph(steps)
    ensures EdgesInside(TableGraph(StepsById(steps))) && !Cyclic(TableGraph(StepsById(steps)))
  {
    var t, g := StepsById(steps), DependencyGraph(steps);
    forall k | k in t
      ensures k in g && Elements(t[k].dependsOn) == g[k] && g[k] <= g.Keys
    {
      var i :| 0 <= i < |steps| && StepIds(steps)[i] == k;
    }
    assert TableGraph(t) == g;
  }

  /** Confirms that dependencies exist and that the graph is acyclic. `ordered` is the
      order built on the way. */
  method ValidateDag(scenario: Scenario) returns (r: DagCheck, ghost ordered: seq<StepId>)
    requires UniqueIds(scenario.steps)
    ensures r.DagOk? <==> ValidDag(scenario.steps)
    ensures r.DagOk? ==> TopologicalOrder(DependencyGraph(scenario.steps), ordered)
    ensures r.CycleDetected? <==>
              ReferencesExist(scenario.steps) && Cyclic(DependencyGraph(scenario.steps))
    ensures r.UnknownDependency? ==> FirstUnknown(scenario.steps, r.step, r.dependency)
  {
    var steps := scenario.steps;
    var ids := StepIds(steps);
    ordered := [];
    for i := 0 to |steps|
      invariant ReferencesExistBefore(steps, i, 0)
    {
      var deps := steps[i].dependsOn;
      for j := 0 to |deps|
        invariant ReferencesExistBefore(steps, i, j)
      {
        if deps[j] !in ids {
          return UnknownDependency(steps[i].id, deps[j]), [];
        }
      }
    }
    assert ReferencesExist(steps);
    var acyclic;
    acyclic, ordered := SortGraph(DependencyGraph(steps), ids);
    r := if acyclic then DagOk else CycleDetected;
  }

  /** The reported pair is the first dependency, in reading order, on a missing step. */
  ghost predicate FirstUnknown(steps: seq<ScenarioStep>, step: StepId, dependency: StepId) {
    exists i, j :: 0 <= i < |steps| && 0 <= j < |steps[i].dependsOn|
      && steps[i].id == step && steps[i].dependsOn[j] == dependency
      && dependency !in StepIds(steps) && ReferencesExistBefore(steps, i, j)
  }

  /** The references checked before dependency `j` of step `i` all exist. */
  ghost predicate ReferencesExistBefore(steps: seq<ScenarioStep>, i: int, j: int) {
    forall m, k :: 0 <= m < |steps| && 0 <= k < |steps[m].dependsOn| && (m < i || (m == i && k < j)) ==>
      steps[m].dependsOn[k] in StepIds(steps)
  }

}
