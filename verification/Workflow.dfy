/** Workflow definitions and the validated plan the runtime executes. */
module Workflow {
  import opened Wrappers
  import opened Graph

  /** A regular expression: one that does not compile, or the outputs it matches. */
  datatype Pattern = BadPattern | Matching(matches: string -> bool)

  datatype HandBackDef = HandBackDef(when: Pattern, to: string, maxTimes: int)

  /**
   * A stage as written in a workflow. `fieldsOk` stands for the checks on its kind,
   * failure policy, quorum, agents, timeout, retry and output schema.
   */
  datatype StageDef = StageDef(
    name: string, dependsOn: seq<string>, fieldsOk: bool, stopWhen: Option<Pattern>, handBack: Option<HandBackDef>)

  datatype HandBack = HandBack(matches: string -> bool, to: nat, maxTimes: nat)

  datatype Plan = Plan(
    deps: Edges, dependents: Edges, stopWhen: seq<Option<string -> bool>>, hand: seq<Option<HandBack>>)

  const DEFAULT_HAND_BACKS: nat := 3

  /** What every plan the compiler returns satisfies, and the scheduler relies on. */
  ghost predicate ValidPlan(p: Plan) {
    && |p.deps| == |p.dependents| == |p.stopWhen| == |p.hand|
    && WellFormed(p.deps) && WellFormed(p.dependents)
    && Inverse(p.deps, p.dependents)
    && !HasCycle(p.deps)
    && forall i :: 0 <= i < |p.hand| && p.hand[i].Some? ==>
         p.hand[i].value.to < |p.deps| && Reaches(p.deps, i, p.hand[i].value.to)
  }

  // ---- What compileWorkflow accepts ----

  predicate NamesStage(stages: seq<StageDef>, name: string) {
    exists j :: 0 <= j < |stages| && stages[j].name == name
  }

  function IndexOf(stages: seq<StageDef>, name: string): (j: nat)
    requires NamesStage(stages, name)
    ensures j < |stages| && stages[j].name == name
  {
    if stages[0].name == name then 0
    else
      assert NamesStage(stages[1..], name) by {
        var k :| 0 <= k < |stages| && stages[k].name == name;
        assert stages[1..][k - 1].name == name;
      }
      1 + IndexOf(stages[1..], name)
  }

  predicate UniqueNames(stages: seq<StageDef>) {
    && (forall i :: 0 <= i < |stages| ==> stages[i].name != "")
    && forall i, j :: 0 <= i < j < |stages| ==> stages[i].name != stages[j].name
  }

  /** Some stage lists dependencies, so none is implied by the order of the stages. */
  predicate IsGraph(stages: seq<StageDef>) {
    exists i :: 0 <= i < |stages| && stages[i].dependsOn != []
  }

  predicate DependsOnOthers(stages: seq<StageDef>, i: nat)
    requires i < |stages|
  {
    forall k :: 0 <= k < |stages[i].dependsOn| ==>
      stages[i].dependsOn[k] != stages[i].name && NamesStage(stages, stages[i].dependsOn[k])
  }

  predicate StageOk(stages: seq<StageDef>, i: nat)
    requires i < |stages|
  {
    && stages[i].fieldsOk
    && (stages[i].stopWhen.Some? ==> stages[i].stopWhen.value.Matching?)
    && DependsOnOthers(stages, i)
  }

  function ListedDeps(stages: seq<StageDef>, i: nat): (d: seq<nat>)
    requires i < |stages| && DependsOnOthers(stages, i)
    ensures |d| == |stages[i].dependsOn|
    ensures forall k :: 0 <= k < |d| ==> d[k] == IndexOf(stages, stages[i].dependsOn[k])
  {
    seq(|stages[i].dependsOn|, k requires 0 <= k < |stages[i].dependsOn| => IndexOf(stages, stages[i].dependsOn[k]))
  }

  function StageDeps(stages: seq<StageDef>, i: nat): (d: seq<nat>)
    requires i < |stages| && DependsOnOthers(stages, i)
  {
    if IsGraph(stages) then ListedDeps(stages, i)
    else if i > 0 then [i - 1] else []
  }

  predicate AllStagesOk(stages: seq<StageDef>) {
    forall i :: 0 <= i < |stages| ==> StageOk(stages, i)
  }

  ghost function DepGraph(stages: seq<StageDef>): (g: Edges)
    requires AllStagesOk(stages)
    ensures WellFormed(g)
  {
    seq(|stages|, i requires 0 <= i < |stages| && StageOk(stages, i) => StageDeps(stages, i))
  }

  ghost predicate HandBackOk(stages: seq<StageDef>, g: Edges, i: nat)
    requires i < |stages| && |g| == |stages|
  {
    stages[i].handBack.Some? ==>
      var h := stages[i].handBack.value;
      h.when.Matching? && h.maxTimes >= 0 && NamesStage(stages, h.to) && Reaches(g, i, IndexOf(stages, h.to))
  }

  ghost predicate Accepted(stages: seq<StageDef>) {
    && stages != []
    && UniqueNames(stages)
    && AllStagesOk(stages)
    && !HasCycle(DepGraph(stages))
    && forall i :: 0 <= i < |stages| ==> HandBackOk(stages, DepGraph(stages), i)
  }

  /** h is the resolved form of the hand-back a stage defines, if any. */
  ghost predicate ResolvesHandBack(stages: seq<StageDef>, def: Option<HandBackDef>, h: Option<HandBack>) {
    match (def, h)
    case (None, None) => true
    case (Some(d), Some(r)) =>
      && d.when.Matching? && r.matches == d.when.matches
      && r.to < |stages| && stages[r.to].name == d.to
      && r.maxTimes == d.maxTimes
    case _ => false
  }

  ghost predicate ResolvesStop(def: Option<Pattern>, stop: Option<string -> bool>) {
    match (def, stop)
    case (None, None) => true
    case (Some(d), Some(m)) => d.Matching? && m == d.matches
    case _ => false
  }

  /** The plan says what the definition says. */
  ghost predicate Compiled(stages: seq<StageDef>, p: Plan)
    requires Accepted(stages)
  {
    && ValidPlan(p)
    && p.deps == DepGraph(stages)
    && (forall i :: 0 <= i < |stages| ==> ResolvesStop(stages[i].stopWhen, p.stopWhen[i]))
    && (forall i :: 0 <= i < |stages| ==> ResolvesHandBack(stages, stages[i].handBack, p.hand[i]))
  }

  /** Stage names to indexes; an error when a name is missing or repeated. */
  method IndexStages(stages: seq<StageDef>) returns (ok: bool, index: map<string, nat>, graph: bool)
    ensures ok <==> UniqueNames(stages)
    ensures ok ==> graph == IsGraph(stages)
    ensures ok ==> forall name :: name in index <==> NamesStage(stages, name)
    ensures ok ==> forall name :: name in index ==> index[name] == IndexOf(stages, name)
  {
    index, graph := map[], false;
    for i := 0 to |stages|
      invariant UniqueNames(stages[..i])
      invariant graph <==> exists k :: 0 <= k < i && stages[k].dependsOn != []
      invariant forall name :: name in index ==> index[name] < i && stages[index[name]].name == name
      invariant forall k :: 0 <= k < i ==> stages[k].name in index
    {
      var s := stages[i];
      if s.name == "" || s.name in index {
        return false, index, graph;
      }
      index := index[s.name := i];
      graph := graph || |s.dependsOn| > 0;
    }
    assert stages[..|stages|] == stages;
    return true, index, graph;
  }

  /** Records that stage i depends on stage j, in both directions. */
  method AddEdge(deps: Edges, dependents: Edges, i: nat, j: nat) returns (deps': Edges, dependents': Edges)
    requires WellFormed(deps) && WellFormed(dependents) && Inverse(deps, dependents) && i < |deps| && j < |deps|
    ensures WellFormed(deps') && WellFormed(dependents') && Inverse(deps', dependents')
    ensures deps' == deps[i := deps[i] + [j]]
  {
    deps' := deps[i := deps[i] + [j]];
    dependents' := dependents[j := dependents[j] + [i]];
  }

  /** Resolves the dependencies stage i lists; an error at the first that is unknown or the stage itself. */
  method LinkStage(stages: seq<StageDef>, index: map<string, nat>, i: nat, deps: Edges, dependents: Edges)
    returns (ok: bool, deps': Edges, dependents': Edges)
    requires UniqueNames(stages) && i < |stages| == |deps| && deps[i] == []
    requires forall name :: name in index <==> NamesStage(stages, name)
    requires forall name :: name in index ==> index[name] == IndexOf(stages, name)
    requires WellFormed(deps) && WellFormed(dependents) && Inverse(deps, dependents)
    ensures ok <==> DependsOnOthers(stages, i)
    ensures ok ==> WellFormed(deps') && WellFormed(dependents') && Inverse(deps', dependents')
    ensures ok ==> deps' == deps[i := ListedDeps(stages, i)]
  {
    deps', dependents' := deps, dependents;
    var listed := stages[i].dependsOn;
    ghost var own: seq<nat> := [];
    for k := 0 to |listed|
      invariant |own| == k && deps' == deps[i := own]
      invariant forall m :: 0 <= m < k ==> listed[m] != stages[i].name && NamesStage(stages, listed[m])
      invariant forall m :: 0 <= m < k ==> own[m] == IndexOf(stages, listed[m])
      invariant WellFormed(deps') && WellFormed(dependents') && Inverse(deps', dependents')
    {
      var d := listed[k];
      if d !in index || index[d] == i {
        return false, deps', dependents';
      }
      deps', dependents' := AddEdge(deps', dependents', i, index[d]);
      own := own + [index[d]];
    }
    assert own == ListedDeps(stages, i);
    return true, deps', dependents';
  }

  /**
   * Resolves every stage's dependencies, with the inverse edges beside them; an error
   * at the first stage that fails its checks.
   */
  method ResolveDeps(stages: seq<StageDef>, index: map<string, nat>, graph: bool)
    returns (ok: bool, deps: Edges, dependents: Edges)
    requires UniqueNames(stages) && graph == IsGraph(stages)
    requires forall name :: name in index <==> NamesStage(stages, name)
    requires forall name :: name in index ==> index[name] == IndexOf(stages, name)
    ensures ok <==> AllStagesOk(stages)
    ensures ok ==> deps == DepGraph(stages) && WellFormed(dependents) && Inverse(deps, dependents)
  {
    var n := |stages|;
    deps, dependents := seq(n, _ => []), seq(n, _ => []);
    for i := 0 to n
      invariant |deps| == n
      invariant forall k :: 0 <= k < i ==> StageOk(stages, k) && deps[k] == StageDeps(stages, k)
      invariant forall k :: i <= k < n ==> deps[k] == []
      invariant WellFormed(deps) && WellFormed(dependents) && Inverse(deps, dependents)
    {
      var s := stages[i];
      assert !StageOk(stages, i) ==> !AllStagesOk(stages);
      if !s.fieldsOk || (s.stopWhen.Some? && s.stopWhen.value.BadPattern?) {
        return false, deps, dependents;
      }
      if graph {
        var linked;
        linked, deps, dependents := LinkStage(stages, index, i, deps, dependents);
        if !linked {
          return false, deps, dependents;
        }
      } else if i > 0 {
        deps, dependents := AddEdge(deps, dependents, i, i - 1);
      }
    }
    assert deps == DepGraph(stages);
    return true, deps, dependents;
  }

  /** Resolves the hand-backs; an error at the first whose target is not the stage or an ancestor of it. */
  method ResolveHandBacks(stages: seq<StageDef>, index: map<string, nat>, deps: Edges)
    returns (ok: bool, hand: seq<Option<HandBack>>)
    requires |deps| == |stages| && WellFormed(deps)
    requires forall name :: name in index <==> NamesStage(stages, name)
    requires forall name :: name in index ==> index[name] == IndexOf(stages, name)
    ensures ok <==> forall i :: 0 <= i < |stages| ==> HandBackOk(stages, deps, i)
    ensures ok ==> |hand| == |stages|
    ensures ok ==> forall i :: 0 <= i < |stages| ==> ResolvesHandBack(stages, stages[i].handBack, hand[i])
    ensures ok ==> forall i :: 0 <= i < |stages| && hand[i].Some? ==> Reaches(deps, i, hand[i].value.to)
  {
    hand := [];
    for i := 0 to |stages|
      invariant |hand| == i
      invariant forall k :: 0 <= k < i ==> HandBackOk(stages, deps, k)
      invariant forall k :: 0 <= k < i ==> ResolvesHandBack(stages, stages[k].handBack, hand[k])
      invariant forall k :: 0 <= k < i && hand[k].Some? ==> Reaches(deps, k, hand[k].value.to)
    {
      if stages[i].handBack.None? {
        hand := hand + [None];
        continue;
      }
      var h := stages[i].handBack.value;
      if h.when.BadPattern? || h.to !in index {
        assert !HandBackOk(stages, deps, i);
        return false, hand;
      }
      var ancestors := Closure(deps, i);
      if index[h.to] !in ancestors || h.maxTimes < 0 {
        assert !HandBackOk(stages, deps, i);
        return false, hand;
      }
      hand := hand + [Some(HandBack(h.when.matches, index[h.to], h.maxTimes))];
    }
    return true, hand;
  }

  function StopPattern(def: Option<Pattern>): (stop: Option<string -> bool>)
    requires def.Some? ==> def.value.Matching?
    ensures ResolvesStop(def, stop)
  {
    if def.Some? then Some(def.value.matches) else None
  }

  function StopPatterns(stages: seq<StageDef>): (stops: seq<Option<string -> bool>>)
    requires AllStagesOk(stages)
    ensures |stops| == |stages|
    ensures forall i :: 0 <= i < |stages| ==> ResolvesStop(stages[i].stopWhen, stops[i])
  {
    assert forall i :: 0 <= i < |stages| ==> StageOk(stages, i);
    seq(|stages|, i requires 0 <= i < |stages| && StageOk(stages, i) => StopPattern(stages[i].stopWhen))
  }

  /**
   * Where some stage lists dependencies, each depends on the stages it names, in that order;
   * where none does, each depends on its predecessor alone.
   */
  predicate DepsAsWritten(stages: seq<StageDef>, deps: Edges) {
    && |deps| == |stages|
    && (IsGraph(stages) ==> forall i :: 0 <= i < |stages| ==>
          |deps[i]| == |stages[i].dependsOn|
          && forall k :: 0 <= k < |deps[i]| ==> deps[i][k] < |stages| && stages[deps[i][k]].name == stages[i].dependsOn[k])
    && (!IsGraph(stages) ==> forall i :: 0 <= i < |stages| ==> deps[i] == if i == 0 then [] else [i - 1])
  }

  /** compileWorkflow: a plan exactly for the accepted workflows, and the plan of that workflow. */
  method CompileWorkflow(stages: seq<StageDef>) returns (r: Result<Plan>)
    ensures r.Ok? <==> Accepted(stages)
    ensures r.Ok? ==> Compiled(stages, r.value) && DepsAsWritten(stages, r.value.deps)
    ensures r.Ok? ==> stages != [] && forall i :: 0 <= i < |stages| ==> stages[i].name != "" && stages[i].fieldsOk
    ensures r.Ok? ==> forall i, j :: 0 <= i < j < |stages| ==> stages[i].name != stages[j].name
  {
    if |stages| == 0 {
      return Err("workflow has no stages");
    }
    var named, index, graph := IndexStages(stages);
    if !named {
      return Err("unnamed or duplicate stage");
    }
    r := CompileNamed(stages, index, graph);
    if r.Ok? {
      forall i | 0 <= i < |stages| ensures stages[i].name != "" && stages[i].fieldsOk {
        assert StageOk(stages, i);
      }
    }
  }

  /** The part of compileWorkflow that runs once every stage has its own name. */
  method CompileNamed(stages: seq<StageDef>, index: map<string, nat>, graph: bool) returns (r: Result<Plan>)
    requires stages != [] && UniqueNames(stages) && graph == IsGraph(stages)
    requires forall name :: name in index <==> NamesStage(stages, name)
    requires forall name :: name in index ==> index[name] == IndexOf(stages, name)
    ensures r.Ok? <==> Accepted(stages)
    ensures r.Ok? ==> Compiled(stages, r.value)
  {
    var ok, deps, dependents := ResolveDeps(stages, index, graph);
    if !ok {
      return Err("bad stage");
    }
    var cycle := Cyclic(deps);
    if cycle {
      return Err("stage dependencies form a cycle");
    }
    var handOk, hand := ResolveHandBacks(stages, index, deps);
    if !handOk {
      return Err("bad hand_back");
    }
    return Ok(Plan(deps, dependents, StopPatterns(stages), hand));
  }

  /** An accepted hand-back resets the stage that handed back: it is among its target's descendants. */
  lemma HandBackResetsItsStage(p: Plan, i: nat)
    requires ValidPlan(p) && i < |p.hand| && p.hand[i].Some?
    ensures Reaches(p.dependents, p.hand[i].value.to, i)
  {
    ReachesInverse(p.deps, p.dependents, i, p.hand[i].value.to);
  }
}
