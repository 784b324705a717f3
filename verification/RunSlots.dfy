/**
 * The slots a run takes before it executes: its tenant's, its workflow's and the global
 * one, in that order and each held to the end. Queued runs do not block one another for
 * ever.
 */
module RunSlots {
  import opened Collections

  datatype Key = Tenant(tenant: string) | Workflow(tenant: string, name: string) | Global

  /** Slots per key; zero or less means unlimited. */
  datatype Limits = Limits(perTenant: int, perWorkflow: int, global: int)

  function LimitOf(limits: Limits, key: Key): int {
    match key
    case Tenant(_) => limits.perTenant
    case Workflow(_, _) => limits.perWorkflow
    case Global => limits.global
  }

  /** The slots acquireRunSlots takes, in its order. A run without a workflow name has no workflow slot. */
  function KeysOf(tenant: string, workflow: string): seq<Key> {
    [Tenant(tenant)] + (if workflow != "" then [Workflow(tenant, workflow)] else []) + [Global]
  }

  /**
   * Waiting: blocked on slot keys[got]. BackingOut: its context ended while it waited, and
   * it gives back what it got. Executing: in execute, which a run that backed out also
   * enters, without slots. Releasing: execute has returned.
   */
  datatype Mode = Waiting | BackingOut | Executing | Releasing | Done

  /** A run holds its first `got` slots. */
  datatype Run = Run(tenant: string, workflow: string, keys: seq<Key>, got: nat, mode: Mode)

  type State = seq<Run>

  datatype Step =
    | Arrive(tenant: string, workflow: string)
    | Acquire(r: nat)
    | CtxEnds(r: nat)
    | BackOut(r: nat)
    | Finish(r: nat)
    | Release(r: nat)

  predicate Holds(run: Run, key: Key) {
    exists k :: 0 <= k < run.got && k < |run.keys| && run.keys[k] == key
  }

  function Holders(s: State, key: Key): set<nat> {
    set r: nat | r < |s| && Holds(s[r], key)
  }

  predicate Enabled(limits: Limits, s: State, step: Step) {
    match step
    case Arrive(_, _) => true
    case Acquire(r) =>
      r < |s| && s[r].mode.Waiting? && s[r].got < |s[r].keys| &&
      var limit := LimitOf(limits, s[r].keys[s[r].got]);
      (limit <= 0 || |Holders(s, s[r].keys[s[r].got])| < limit)
    case CtxEnds(r) => r < |s| && s[r].mode.Waiting?
    case BackOut(r) => r < |s| && s[r].mode.BackingOut?
    case Finish(r) => r < |s| && s[r].mode.Executing?
    case Release(r) => r < |s| && s[r].mode.Releasing?
  }

  function Apply(limits: Limits, s: State, step: Step): State
    requires Enabled(limits, s, step)
  {
    match step
    case Arrive(tenant, workflow) => s + [Run(tenant, workflow, KeysOf(tenant, workflow), 0, Waiting)]
    case Acquire(r) =>
      var got := s[r].got + 1;
      s[r := s[r].(got := got, mode := if got == |s[r].keys| then Executing else Waiting)]
    case CtxEnds(r) => s[r := s[r].(mode := BackingOut)]
    case BackOut(r) => s[r := if s[r].got > 0 then s[r].(got := s[r].got - 1) else s[r].(mode := Executing)]
    case Finish(r) => s[r := s[r].(mode := Releasing)]
    case Release(r) => s[r := if s[r].got > 0 then s[r].(got := s[r].got - 1) else s[r].(mode := Done)]
  }

  predicate IsRun(limits: Limits, s: State, steps: seq<Step>)
    decreases |steps|
  {
    steps == [] || (Enabled(limits, s, steps[0]) && IsRun(limits, Apply(limits, s, steps[0]), steps[1..]))
  }

  function After(limits: Limits, s: State, steps: seq<Step>): State
    requires IsRun(limits, s, steps)
    decreases |steps|
  {
    if steps == [] then s else After(limits, Apply(limits, s, steps[0]), steps[1..])
  }

  // ---- The invariant ----

  function Level(key: Key): nat {
    match key
    case Tenant(_) => 0
    case Workflow(_, _) => 1
    case Global => 2
  }

  /** Every run takes its slots in the order of their levels, so it never takes one twice. */
  predicate InOrder(keys: seq<Key>) {
    forall j, k :: 0 <= j < k < |keys| ==> Level(keys[j]) < Level(keys[k])
  }

  predicate Sound(run: Run) {
    && InOrder(run.keys) && run.got <= |run.keys| && run.keys == KeysOf(run.tenant, run.workflow)
    && (run.mode.Waiting? ==> run.got < |run.keys|)
    && (run.mode.Executing? ==> run.got == 0 || run.got == |run.keys|)
    && (run.mode.Done? ==> run.got == 0)
  }

  ghost predicate WithinLimits(limits: Limits, s: State) {
    forall key: Key :: LimitOf(limits, key) > 0 ==> |Holders(s, key)| <= LimitOf(limits, key)
  }

  ghost predicate Inv(limits: Limits, s: State) {
    && (forall r :: 0 <= r < |s| ==> Sound(s[r]))
    && WithinLimits(limits, s)
  }

  /** Only the run that takes a slot is added to its holders, and to no other slot's. */
  lemma HoldersAfter(limits: Limits, s: State, step: Step, key: Key)
    requires Inv(limits, s) && Enabled(limits, s, step)
    ensures Holders(Apply(limits, s, step), key) <=
              Holders(s, key) + if step.Acquire? && s[step.r].keys[s[step.r].got] == key then {step.r} else {}
  {
  }

  lemma StepKeeps(limits: Limits, s: State, step: Step)
    requires Inv(limits, s) && Enabled(limits, s, step)
    ensures Inv(limits, Apply(limits, s, step))
  {
    var t := Apply(limits, s, step);
    forall key: Key | LimitOf(limits, key) > 0 ensures |Holders(t, key)| <= LimitOf(limits, key) {
      HoldersAfter(limits, s, step, key);
      if step.Acquire? && s[step.r].keys[s[step.r].got] == key {
        SubsetSize(Holders(t, key), Holders(s, key) + {step.r});
      } else {
        SubsetSize(Holders(t, key), Holders(s, key));
      }
    }
  }

  lemma {:induction false} RunKeeps(limits: Limits, s: State, steps: seq<Step>)
    requires Inv(limits, s) && IsRun(limits, s, steps)
    ensures Inv(limits, After(limits, s, steps))
    decreases |steps|
  {
    if steps != [] {
      StepKeeps(limits, s, steps[0]);
      RunKeeps(limits, Apply(limits, s, steps[0]), steps[1..]);
    }
  }

  lemma InitInv(limits: Limits)
    ensures Inv(limits, [])
  {
    forall key: Key ensures |Holders([], key)| == 0 {
      assert Holders([], key) == {};
    }
  }

  // ---- No deadlock ----

  predicate Moving(run: Run) {
    run.mode.BackingOut? || run.mode.Executing? || run.mode.Releasing?
  }

  function NextLevel(run: Run): nat
    requires Sound(run) && run.mode.Waiting?
  {
    Level(run.keys[run.got])
  }

  /** Among the runs waiting, one that waits at the highest level. */
  lemma {:induction false} HighestWaiting(s: State, n: nat) returns (best: nat)
    requires n <= |s| && (forall r :: 0 <= r < |s| ==> Sound(s[r])) && exists r :: 0 <= r < n && s[r].mode.Waiting?
    ensures best < n && s[best].mode.Waiting?
    ensures forall r :: 0 <= r < n && s[r].mode.Waiting? ==> NextLevel(s[r]) <= NextLevel(s[best])
  {
    if exists r :: 0 <= r < n - 1 && s[r].mode.Waiting? {
      best := HighestWaiting(s, n - 1);
      if s[n - 1].mode.Waiting? && NextLevel(s[n - 1]) > NextLevel(s[best]) {
        best := n - 1;
      }
    } else {
      best := n - 1;
    }
  }

  /** A waiting run holds only slots of lower levels than the one it waits for. */
  lemma HeldIsLower(run: Run, key: Key)
    requires Sound(run) && run.mode.Waiting? && Holds(run, key)
    ensures Level(key) < NextLevel(run)
  {
  }

  /** With a run waiting, some run is past waiting or some waiting run's next slot is free. */
  lemma SomeoneCanMove(limits: Limits, s: State) returns (r: nat)
    requires Inv(limits, s) && exists r :: 0 <= r < |s| && s[r].mode.Waiting?
    ensures r < |s| && (Moving(s[r]) || Enabled(limits, s, Acquire(r)))
  {
    if m :| 0 <= m < |s| && Moving(s[m]) {
      r := m;
    } else {
      r := HighestWaiting(s, |s|);
      var key := s[r].keys[s[r].got];
      forall h: nat | h < |s| ensures !Holds(s[h], key) {
        if s[h].mode.Waiting? && Holds(s[h], key) {
          HeldIsLower(s[h], key);
        }
      }
      assert Holders(s, key) == {};
    }
  }

  /** In every reachable state with a waiting run, some run is moving or some waiting run's next acquire can proceed. */
  lemma NoDeadlock(limits: Limits, steps: seq<Step>, waiting: nat) returns (r: nat)
    requires IsRun(limits, [], steps)
    requires waiting < |After(limits, [], steps)| && After(limits, [], steps)[waiting].mode.Waiting?
    ensures var s := After(limits, [], steps); r < |s| && (Moving(s[r]) || Enabled(limits, s, Acquire(r)))
  {
    InitInv(limits);
    RunKeeps(limits, [], steps);
    r := SomeoneCanMove(limits, After(limits, [], steps));
  }

  /** The runs that execute with slots: all but those that backed out. */
  function Admitted(s: State): set<nat> {
    set r: nat | r < |s| && s[r].mode.Executing? && s[r].got > 0
  }

  function AdmittedOf(s: State, tenant: string): set<nat> {
    set r: nat | r in Admitted(s) && s[r].tenant == tenant
  }

  function AdmittedIn(s: State, tenant: string, workflow: string): set<nat> {
    set r: nat | r in AdmittedOf(s, tenant) && s[r].workflow == workflow
  }

  /** A run of the tenant and workflow that executes with slots holds this slot. */
  lemma AdmittedHold(s: State, runs: set<nat>, key: Key)
    requires runs <= Admitted(s) && forall r :: r in runs ==> Sound(s[r]) && key in s[r].keys
    ensures |runs| <= |Holders(s, key)|
  {
    forall r | r in runs ensures r in Holders(s, key) {
      var k :| 0 <= k < |s[r].keys| && s[r].keys[k] == key;
    }
    SubsetSize(runs, Holders(s, key));
  }

  lemma KeysTaken(tenant: string, workflow: string)
    ensures Global in KeysOf(tenant, workflow) && Tenant(tenant) in KeysOf(tenant, workflow)
    ensures workflow != "" ==> Workflow(tenant, workflow) in KeysOf(tenant, workflow)
  {
    assert KeysOf(tenant, workflow)[0] == Tenant(tenant);
    assert KeysOf(tenant, workflow)[|KeysOf(tenant, workflow)| - 1] == Global;
    assert workflow != "" ==> KeysOf(tenant, workflow)[1] == Workflow(tenant, workflow);
  }

  /**
   * In every reachable state the runs that execute with slots are within the process's
   * limit; those of a tenant within the limit per tenant; and those of a tenant's named
   * workflow within the limit per workflow.
   */
  lemma ExecutingWithinLimits(limits: Limits, steps: seq<Step>, tenant: string, workflow: string)
    requires IsRun(limits, [], steps)
    ensures var s := After(limits, [], steps);
            && (limits.global > 0 ==> |Admitted(s)| <= limits.global)
            && (limits.perTenant > 0 ==> |AdmittedOf(s, tenant)| <= limits.perTenant)
            && (limits.perWorkflow > 0 && workflow != "" ==> |AdmittedIn(s, tenant, workflow)| <= limits.perWorkflow)
  {
    InitInv(limits);
    RunKeeps(limits, [], steps);
    var s := After(limits, [], steps);
    forall r | r in Admitted(s) ensures Global in s[r].keys && Tenant(s[r].tenant) in s[r].keys {
      KeysTaken(s[r].tenant, s[r].workflow);
    }
    AdmittedHold(s, Admitted(s), Global);
    AdmittedHold(s, AdmittedOf(s, tenant), Tenant(tenant));
    if workflow != "" {
      KeysTaken(tenant, workflow);
      AdmittedHold(s, AdmittedIn(s, tenant, workflow), Workflow(tenant, workflow));
    }
    assert LimitOf(limits, Global) == limits.global && LimitOf(limits, Tenant(tenant)) == limits.perTenant;
    assert LimitOf(limits, Workflow(tenant, workflow)) == limits.perWorkflow;
  }

  function Labels(s: State): seq<(string, string)> {
    seq(|s|, r requires 0 <= r < |s| => (s[r].tenant, s[r].workflow))
  }

  /** The tenants and workflows of the runs that arrive, in order. */
  function Arrived(steps: seq<Step>): seq<(string, string)> {
    if steps == [] then []
    else (if steps[0].Arrive? then [(steps[0].tenant, steps[0].workflow)] else []) + Arrived(steps[1..])
  }

  lemma StepKeepsLabels(limits: Limits, s: State, step: Step)
    requires Enabled(limits, s, step)
    ensures Labels(Apply(limits, s, step)) == Labels(s) + if step.Arrive? then [(step.tenant, step.workflow)] else []
  {
  }

  /** The runs of a state are those that arrived, each with the tenant and workflow it arrived with. */
  lemma {:induction false} RunsAreArrivals(limits: Limits, s: State, steps: seq<Step>)
    requires IsRun(limits, s, steps)
    ensures Labels(After(limits, s, steps)) == Labels(s) + Arrived(steps)
    decreases |steps|
  {
    if steps == [] {
      Unit(Labels(s));
    } else {
      StepKeepsLabels(limits, s, steps[0]);
      RunsAreArrivals(limits, Apply(limits, s, steps[0]), steps[1..]);
      Assoc(Labels(s), if steps[0].Arrive? then [(steps[0].tenant, steps[0].workflow)] else [], Arrived(steps[1..]));
    }
  }

  /** Only a run whose context ended before it had all its slots executes without them. */
  lemma {:induction false} ExecutesWithoutSlotsOnlyAfterContextEnds(limits: Limits, s: State, steps: seq<Step>, r: nat)
    requires Inv(limits, s) && IsRun(limits, s, steps) && r < |After(limits, s, steps)|
    requires r < |s| ==> !s[r].mode.BackingOut? && (s[r].mode.Executing? ==> s[r].got > 0)
    requires After(limits, s, steps)[r].mode.Executing? && After(limits, s, steps)[r].got == 0
    ensures exists k :: 0 <= k < |steps| && steps[k] == CtxEnds(r)
    decreases |steps|
  {
    if steps != [] && steps[0] != CtxEnds(r) {
      var t := Apply(limits, s, steps[0]);
      StepKeeps(limits, s, steps[0]);
      ExecutesWithoutSlotsOnlyAfterContextEnds(limits, t, steps[1..], r);
      var k :| 0 <= k < |steps[1..]| && steps[1..][k] == CtxEnds(r);
      assert steps[k + 1] == CtxEnds(r);
    } else if steps != [] {
      assert steps[0] == CtxEnds(r);
    }
  }

  /** No run is done without having executed. */
  lemma {:induction false} DoneHasExecuted(limits: Limits, s: State, steps: seq<Step>, r: nat)
    requires IsRun(limits, s, steps) && r < |After(limits, s, steps)| && After(limits, s, steps)[r].mode.Done?
    requires r < |s| ==> !s[r].mode.Done? && !s[r].mode.Releasing?
    ensures exists k :: 0 <= k < |steps| && steps[k] == Finish(r)
    decreases |steps|
  {
    if steps != [] && steps[0] != Finish(r) {
      DoneHasExecuted(limits, Apply(limits, s, steps[0]), steps[1..], r);
      var k :| 0 <= k < |steps[1..]| && steps[1..][k] == Finish(r);
      assert steps[k + 1] == Finish(r);
    } else if steps != [] {
      assert steps[0] == Finish(r);
    }
  }

  // ---- The queue drains ----

  /** How many steps a run can still make. */
  function Weight(run: Run): int {
    match run.mode
    case Waiting => 2 * |run.keys| + 4 - run.got
    case BackingOut => run.got + 3
    case Executing => run.got + 2
    case Releasing => run.got + 1
    case Done => 0
  }

  function Work(s: State): int {
    if s == [] then 0 else Work(s[..|s| - 1]) + Weight(s[|s| - 1])
  }

  lemma {:induction false} WorkUpdate(s: State, r: nat, run: Run)
    requires r < |s|
    ensures Work(s[r := run]) == Work(s) - Weight(s[r]) + Weight(run)
  {
    var last := |s| - 1;
    if r == last {
      assert s[r := run][..last] == s[..last];
    } else {
      assert s[r := run][..last] == s[..last][r := run];
      WorkUpdate(s[..last], r, run);
    }
  }

  lemma {:induction false} WorkIsPositive(s: State)
    requires forall r :: 0 <= r < |s| ==> Sound(s[r])
    ensures Work(s) >= 0
    ensures (exists r :: 0 <= r < |s| && !s[r].mode.Done?) ==> Work(s) > 0
  {
    if s != [] {
      WorkIsPositive(s[..|s| - 1]);
    }
  }

  lemma StepUsesWork(limits: Limits, s: State, step: Step)
    requires Inv(limits, s) && Enabled(limits, s, step) && !step.Arrive?
    ensures Work(Apply(limits, s, step)) < Work(s)
  {
    WorkUpdate(s, step.r, Apply(limits, s, step)[step.r]);
  }

  /** Until every run is done, some step other than an arrival or an ended context can be made. */
  lemma NotStuck(limits: Limits, s: State) returns (step: Step)
    requires Inv(limits, s) && exists r :: 0 <= r < |s| && !s[r].mode.Done?
    ensures Enabled(limits, s, step) && !step.Arrive? && !step.CtxEnds?
  {
    var r: nat :| r < |s| && !s[r].mode.Done?;
    if s[r].mode.Waiting? {
      r := SomeoneCanMove(limits, s);
    }
    match s[r].mode
    case Waiting => step := Acquire(r);
    case BackingOut => step := BackOut(r);
    case Executing => step := Finish(r);
    case Releasing => step := Release(r);
  }

  /**
   * The queue drains: without new arrivals the runs make at most Work(s) more steps, in
   * any order, and can always make another until every run is done.
   */
  lemma {:induction false} QueueDrains(limits: Limits, s: State, steps: seq<Step>)
    requires Inv(limits, s) && IsRun(limits, s, steps) && forall k :: 0 <= k < |steps| ==> !steps[k].Arrive?
    ensures |steps| <= Work(s) - Work(After(limits, s, steps)) && Work(After(limits, s, steps)) >= 0
    ensures var t := After(limits, s, steps);
            (forall step :: Enabled(limits, t, step) ==> step.Arrive?) <==> forall r :: 0 <= r < |t| ==> t[r].mode.Done?
    decreases |steps|
  {
    if steps != [] {
      StepKeeps(limits, s, steps[0]);
      StepUsesWork(limits, s, steps[0]);
      QueueDrains(limits, Apply(limits, s, steps[0]), steps[1..]);
    } else {
      WorkIsPositive(s);
      if exists r :: 0 <= r < |s| && !s[r].mode.Done? {
        var step := NotStuck(limits, s);
        assert Enabled(limits, s, step);
      }
    }
  }
}
