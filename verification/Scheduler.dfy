/**
 * The workflow scheduler: an event loop that starts every stage whose dependencies
 * are done, takes the results of running stages in whatever order they arrive, and
 * resets whole descendant sets when a stage hands work back.
 *
 * A run is a sequence of steps of the loop against an arbitrary environment.
 */
module Scheduler {
  import opened Wrappers
  import opened Graph
  import opened Workflow
  import opened HandBackBudget

  datatype Phase = Pending | Running | Done

  /**
   * A finished stage's result. `stall` is the error, if any, with which the loop
   * detector stops the run if this result hands work back.
   */
  datatype Arrival = Arrival(stage: nat, result: Result<string>, stall: Option<string>)

  /**
   * The local variables of the loop, by stage index, with what its goroutines hold:
   * `inflight` are the stages whose result has not been taken, and `local` and `fed`
   * the outputs and the feedback each stage's last execution was started with.
   */
  datatype Sched = Sched(
    state: seq<Phase>, handBacks: seq<nat>, feedback: seq<string>, vars: seq<Option<string>>,
    failed: Option<string>, stopped: bool, resets: seq<nat>,
    inflight: set<nat>, local: seq<seq<Option<string>>>, fed: seq<string>, starts: nat)

  function Repeat<T>(n: nat, x: T): (s: seq<T>)
    ensures |s| == n && forall i :: 0 <= i < n ==> s[i] == x
  {
    seq(n, _ => x)
  }

  function Init(p: Plan): Sched {
    var n := |p.deps|;
    Sched(Repeat(n, Pending), Repeat(n, 0), Repeat(n, ""), Repeat(n, None), None, false, [],
          {}, Repeat(n, Repeat(n, None)), Repeat(n, ""), 0)
  }

  // ---- Steps ----

  predicate Fits(p: Plan, s: Sched) {
    var n := |p.deps|;
    && |s.state| == |s.handBacks| == |s.feedback| == |s.vars| == |s.local| == |s.fed| == n
    && (forall i :: 0 <= i < n ==> |s.local[i]| == n)
    && (forall i :: i in s.inflight ==> i < n)
    && (forall k :: 0 <= k < |s.resets| ==> s.resets[k] < n)
  }

  predicate IsReady(p: Plan, state: seq<Phase>, i: nat)
    requires WellFormed(p.deps) && |state| == |p.deps| && i < |p.deps|
  {
    state[i] == Pending && forall k :: 0 <= k < |p.deps[i]| ==> state[p.deps[i][k]] == Done
  }

  ghost function ReadySet(p: Plan, s: Sched): set<nat>
    requires ValidPlan(p) && Fits(p, s)
  {
    set i: nat | i in Below(|p.deps|) && IsReady(p, s.state, i)
  }

  predicate MayStart(s: Sched) {
    s.failed.None? && !s.stopped && s.resets == []
  }

  /** Starts every ready stage, with a copy of the outputs so far and its feedback. */
  ghost function StartReady(p: Plan, s: Sched): (s': Sched)
    requires ValidPlan(p) && Fits(p, s)
    ensures Fits(p, s')
  {
    var n := |p.deps|;
    var ready := ReadySet(p, s);
    s.(state := seq(n, i requires 0 <= i < n => if i in ready then Running else s.state[i]),
       inflight := s.inflight + ready,
       local := seq(n, i requires 0 <= i < n => if i in ready then s.vars else s.local[i]),
       fed := seq(n, i requires 0 <= i < n => if i in ready then s.feedback[i] else s.fed[i]),
       starts := s.starts + |ready|)
  }

  predicate HandsBack(p: Plan, i: nat, out: string)
    requires i < |p.hand|
  {
    p.hand[i].Some? && p.hand[i].value.matches(out)
  }

  predicate Stops(p: Plan, i: nat, out: string)
    requires i < |p.stopWhen|
  {
    p.stopWhen[i].Some? && p.stopWhen[i].value(out)
  }

  /** Takes the result of a stage. After a failure, results are only counted. */
  function Receive(p: Plan, s: Sched, r: Arrival): (s': Sched)
    requires |p.hand| == |p.stopWhen| == |p.deps| && Fits(p, s) && r.stage in s.inflight
    requires p.hand[r.stage].Some? ==> p.hand[r.stage].value.to < |p.deps|
    ensures Fits(p, s')
  {
    var i := r.stage;
    var taken := s.(inflight := s.inflight - {i});
    if s.failed.Some? then taken
    else if r.result.Err? then taken.(failed := Some(r.result.error))
    else
      var out := r.result.value;
      var d := taken.(state := s.state[i := Done], vars := s.vars[i := Some(out)]);
      if HandsBack(p, i, out) then
        var h := p.hand[i].value;
        var c := d.(handBacks := s.handBacks[i := s.handBacks[i] + 1]);
        if c.handBacks[i] > Limit(h) then c.(failed := Some("stage still failed validation"))
        else if r.stall.Some? then c.(failed := r.stall)
        else c.(feedback := s.feedback[h.to := out], resets := s.resets + [h.to])
      else if Stops(p, i, out) then d.(stopped := true)
      else d
  }

  ghost predicate IsReset(p: Plan, resets: seq<nat>, i: nat) {
    exists k :: 0 <= k < |resets| && Reaches(p.dependents, resets[k], i)
  }

  /** Makes every stage that was handed work back, and all that depend on one, pending again. */
  ghost function ApplyResets(p: Plan, s: Sched): (s': Sched)
    requires Fits(p, s)
    ensures Fits(p, s')
  {
    var n := |p.deps|;
    s.(state := seq(n, i requires 0 <= i < n => if IsReset(p, s.resets, i) then Pending else s.state[i]),
       resets := [])
  }

  datatype Step = Start | Take(r: Arrival) | Reset

  ghost predicate Enabled(p: Plan, s: Sched, step: Step)
    requires ValidPlan(p) && Fits(p, s)
  {
    match step
    case Start => MayStart(s) && ReadySet(p, s) != {}
    case Take(r) => r.stage in s.inflight
    case Reset => s.inflight == {} && s.resets != []
  }

  ghost function Apply(p: Plan, s: Sched, step: Step): (s': Sched)
    requires ValidPlan(p) && Fits(p, s) && Enabled(p, s, step)
    ensures Fits(p, s')
  {
    match step
    case Start => StartReady(p, s)
    case Take(r) => Receive(p, s, r)
    case Reset => ApplyResets(p, s)
  }

  /** The state the steps lead to from the start, if they can be taken one after the other. */
  ghost function Walk(p: Plan, steps: seq<Step>): (s: Option<Sched>)
    requires ValidPlan(p)
    ensures s.Some? ==> Fits(p, s.value)
  {
    if steps == [] then Some(Init(p))
    else
      var last := |steps| - 1;
      match Walk(p, steps[..last])
      case None => None
      case Some(s) => if Enabled(p, s, steps[last]) then Some(Apply(p, s, steps[last])) else None
  }

  ghost predicate IsRun(p: Plan, steps: seq<Step>)
    requires ValidPlan(p)
  {
    Walk(p, steps).Some?
  }

  ghost function After(p: Plan, steps: seq<Step>): (s: Sched)
    requires ValidPlan(p) && IsRun(p, steps)
    ensures Fits(p, s)
  {
    Walk(p, steps).value
  }

  lemma RunExtends(p: Plan, steps: seq<Step>, step: Step)
    requires ValidPlan(p) && IsRun(p, steps) && Enabled(p, After(p, steps), step)
    ensures IsRun(p, steps + [step]) && After(p, steps + [step]) == Apply(p, After(p, steps), step)
  {
    assert (steps + [step])[..|steps|] == steps;
  }

  /** The loop returns: nothing is in flight, no reset is due and nothing can start. */
  ghost predicate Returns(p: Plan, s: Sched)
    requires ValidPlan(p) && Fits(p, s)
  {
    forall step: Step :: !Enabled(p, s, step)
  }

  // ---- The invariant ----

  /** Stages in flight are running; while nothing failed, running stages are in flight. */
  ghost predicate Outstanding(p: Plan, s: Sched)
    requires Fits(p, s)
  {
    && (forall i :: i in s.inflight ==> s.state[i] == Running)
    && (s.failed.None? ==> forall i :: 0 <= i < |s.state| && s.state[i] == Running ==> i in s.inflight)
  }

  /** A running or done stage has all its dependencies done. */
  ghost predicate DepsDone(p: Plan, s: Sched)
    requires ValidPlan(p) && Fits(p, s)
  {
    forall i, k :: 0 <= i < |s.state| && s.state[i] != Pending && 0 <= k < |p.deps[i]| ==>
      s.state[p.deps[i][k]] == Done
  }

  /** A running or done stage was last started with the outputs its dependencies still have. */
  ghost predicate FreshInputs(p: Plan, s: Sched)
    requires ValidPlan(p) && Fits(p, s)
  {
    && (forall i {:trigger s.vars[i]} :: 0 <= i < |s.state| && s.state[i] == Done ==> s.vars[i].Some?)
    && forall i, k :: 0 <= i < |s.state| && s.state[i] != Pending && 0 <= k < |p.deps[i]| ==>
         s.local[i][p.deps[i][k]] == s.vars[p.deps[i][k]]
  }

  /** Feedback newer than a stage's last start is always about to reset that stage. */
  ghost predicate FreshFeedback(p: Plan, s: Sched)
    requires Fits(p, s)
  {
    forall i {:trigger s.fed[i]} :: 0 <= i < |s.state| && s.state[i] != Pending ==>
      s.fed[i] == s.feedback[i] || (s.state[i] == Done && i in s.resets)
  }

  /** While nothing failed, an output that hands back has its reset due, and one that stops has stopped. */
  ghost predicate Owed(p: Plan, s: Sched)
    requires ValidPlan(p) && Fits(p, s)
  {
    s.failed.None? ==>
      forall i {:trigger s.vars[i]} :: 0 <= i < |s.state| && s.state[i] == Done && s.vars[i].Some? ==>
        && (HandsBack(p, i, s.vars[i].value) ==> IsReset(p, s.resets, i))
        && (!HandsBack(p, i, s.vars[i].value) && Stops(p, i, s.vars[i].value) ==> s.stopped)
  }

  ghost function PendingSet(state: seq<Phase>): set<nat> {
    set i: nat | i in Below(|state|) && state[i] == Pending
  }

  /** Starts still possible: pending stages, and a whole workflow for each reset due or hand-back left. */
  ghost function StartsLeft(p: Plan, s: Sched): nat
    requires ValidPlan(p) && Fits(p, s)
  {
    |PendingSet(s.state)| + Times(|p.deps|, Left(p, s.handBacks) + |s.resets|)
  }

  /** What every step makes smaller. */
  ghost function Measure(p: Plan, s: Sched): nat
    requires ValidPlan(p) && Fits(p, s)
  {
    3 * StartsLeft(p, s) + 2 * |s.inflight| + |s.resets|
  }

  /** Starts made and starts still possible never exceed what the workflow allows. */
  ghost predicate Bounded(p: Plan, s: Sched)
    requires ValidPlan(p) && Fits(p, s)
  {
    s.starts + StartsLeft(p, s) <= Times(|p.deps|, 1 + Limits(p))
  }

  ghost predicate Orderly(p: Plan, s: Sched)
    requires ValidPlan(p)
  {
    && Fits(p, s)
    && Outstanding(p, s)
    && DepsDone(p, s)
    && FreshInputs(p, s)
    && FreshFeedback(p, s)
    && Owed(p, s)
  }

  ghost predicate Inv(p: Plan, s: Sched)
    requires ValidPlan(p)
  {
    Orderly(p, s) && Bounded(p, s)
  }
}
