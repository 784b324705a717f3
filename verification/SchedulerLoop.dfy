/** The scheduler's loop itself, on an array of stage states, proved to take only the scheduler's steps. */
module SchedulerLoop {
  import opened Wrappers
  import opened Graph
  import opened Workflow
  import opened Scheduler
  import opened SchedulerSteps
  import opened SchedulerRuns
  import opened SchedulerHistory

  /** The stage is pending and everything it depends on is done. */
  predicate ReadyAt(p: Plan, state: seq<Phase>, i: nat)
    requires ValidPlan(p) && |state| == |p.deps| && i < |p.deps|
  {
    state[i].Pending? && forall d :: d in p.deps[i] ==> state[d].Done?
  }

  /** The stage depends, however indirectly, on one of these, or is one. */
  ghost predicate DescendsFromOne(p: Plan, targets: seq<nat>, i: nat) {
    exists t :: t in targets && Reaches(p.dependents, t, i)
  }

  /** One pass of the start loop: marks every ready stage running, and returns the stages it launched. */
  method StartStages(p: Plan, state: array<Phase>, ghost s: Sched) returns (begun: set<nat>)
    requires ValidPlan(p) && Fits(p, s) && state[..] == s.state
    modifies state
    ensures state[..] == StartReady(p, s).state && begun == ReadySet(p, s)
    ensures forall i: nat :: i in begun <==> i < |s.state| && ReadyAt(p, s.state, i)
    ensures forall i :: 0 <= i < |s.state| ==> state[..][i] == if i in begun then Running else s.state[i]
  {
    var n := |p.deps|;
    begun := {};
    for i := 0 to n
      invariant state.Length == n
      invariant StartedBelow(p, s, begun, state[..], i)
    {
      ReadyUnaffected(p, s, begun, state[..], i);
      if IsReady(p, state[..], i) {
        state[i] := Running;
        begun := begun + {i};
      }
    }
    StartedAll(p, s, begun, state[..]);
  }

  /** The ready stages before i have been started, and only they. */
  ghost predicate StartedBelow(p: Plan, s: Sched, begun: set<nat>, now: seq<Phase>, i: nat)
    requires ValidPlan(p) && Fits(p, s)
  {
    && |now| == |p.deps|
    && (forall j: nat :: j in begun <==> j < i && j < |now| && IsReady(p, s.state, j))
    && (forall j :: 0 <= j < |now| ==> now[j] == if j in begun then Running else s.state[j])
  }

  lemma StartedAll(p: Plan, s: Sched, begun: set<nat>, now: seq<Phase>)
    requires ValidPlan(p) && Fits(p, s) && StartedBelow(p, s, begun, now, |p.deps|)
    ensures now == StartReady(p, s).state && begun == ReadySet(p, s)
    ensures forall i: nat :: i in begun <==> i < |s.state| && ReadyAt(p, s.state, i)
  {
    assert begun == ReadySet(p, s);
    forall i: nat | i < |s.state| ensures i in begun <==> ReadyAt(p, s.state, i) {
      ReadyIsReadyAt(p, s.state, i);
    }
  }

  lemma ReadyIsReadyAt(p: Plan, state: seq<Phase>, i: nat)
    requires ValidPlan(p) && |state| == |p.deps| && i < |p.deps|
    ensures IsReady(p, state, i) <==> ReadyAt(p, state, i)
  {
    if IsReady(p, state, i) {
      forall d | d in p.deps[i] ensures state[d].Done? {
        var k :| 0 <= k < |p.deps[i]| && p.deps[i][k] == d;
      }
    } else if ReadyAt(p, state, i) {
      forall k | 0 <= k < |p.deps[i]| ensures state[p.deps[i][k]] == Done {
        assert p.deps[i][k] in p.deps[i];
      }
      assert IsReady(p, state, i);
    }
  }

  /** Starting other ready stages does not change whether a stage is ready. */
  lemma ReadyUnaffected(p: Plan, s: Sched, begun: set<nat>, now: seq<Phase>, i: nat)
    requires ValidPlan(p) && Fits(p, s) && i < |p.deps| && StartedBelow(p, s, begun, now, i)
    ensures IsReady(p, now, i) <==> IsReady(p, s.state, i)
    ensures IsReady(p, now, i) ==> StartedBelow(p, s, begun + {i}, now[i := Running], i + 1)
    ensures !IsReady(p, now, i) ==> StartedBelow(p, s, begun, now, i + 1)
  {
  }

  method ResetStages(p: Plan, state: array<Phase>, resets: seq<nat>, ghost s: Sched)
    requires ValidPlan(p) && Fits(p, s) && state[..] == s.state && resets == s.resets
    modifies state
    ensures state[..] == ApplyResets(p, s).state
    ensures forall i :: 0 <= i < |s.state| ==> state[..][i] == if DescendsFromOne(p, resets, i) then Pending else s.state[i]
  {
    var n := |p.deps|;
    for t := 0 to |resets|
      invariant state.Length == n
      invariant forall j :: 0 <= j < n ==> state[j] == if IsReset(p, resets[..t], j) then Pending else s.state[j]
    {
      var reached := Closure(p.dependents, resets[t]);
      forall k | 0 <= k < |reached| ensures reached[k] < n {
        assert reached[k] in reached;
        var path :| Connects(p.dependents, path, resets[t], reached[k]);
      }
      ghost var before := state[..];
      for k := 0 to |reached|
        invariant state.Length == n
        invariant forall j :: 0 <= j < n ==> state[j] == if j in reached[..k] then Pending else before[j]
      {
        state[reached[k]] := Pending;
      }
      assert reached[..|reached|] == reached;
      forall j | 0 <= j < n
        ensures IsReset(p, resets[..t + 1], j) <==> IsReset(p, resets[..t], j) || Reaches(p.dependents, resets[t], j)
      {
        IsResetGrows(p, resets, t, j);
      }
    }
    assert resets[..|resets|] == resets;
  }

  lemma IsResetGrows(p: Plan, resets: seq<nat>, t: nat, j: nat)
    requires t < |resets|
    ensures IsReset(p, resets[..t + 1], j) <==> IsReset(p, resets[..t], j) || Reaches(p.dependents, resets[t], j)
  {
    var shorter, longer := resets[..t], resets[..t + 1];
    assert longer == shorter + [resets[t]];
    if IsReset(p, shorter, j) {
      var k :| 0 <= k < |shorter| && Reaches(p.dependents, shorter[k], j);
      assert longer[k] == shorter[k];
    }
    if Reaches(p.dependents, resets[t], j) {
      assert longer[t] == resets[t];
    }
    if IsReset(p, longer, j) {
      var k :| 0 <= k < |longer| && Reaches(p.dependents, longer[k], j);
      assert k < t ==> shorter[k] == longer[k];
    }
  }

  /** The loop's bookkeeping beside the stage states. */
  datatype Books = Books(
    handBacks: seq<nat>, feedback: seq<string>, vars: seq<Option<string>>, failed: Option<string>, stopped: bool, resets: seq<nat>)

  function BooksOf(s: Sched): Books {
    Books(s.handBacks, s.feedback, s.vars, s.failed, s.stopped, s.resets)
  }

  /** What the loop does with the output of a stage that succeeded, while nothing has failed. */
  method TakeOutput(p: Plan, r: Arrival, state: array<Phase>, b: Books, ghost s: Sched) returns (b': Books)
    requires ValidPlan(p) && Fits(p, s) && r.stage in s.inflight && s.failed.None? && r.result.Ok?
    requires state[..] == s.state && b == BooksOf(s)
    modifies state
    ensures state[..] == Receive(p, s, r).state && b' == BooksOf(Receive(p, s, r))
  {
    var i, out := r.stage, r.result.value;
    state[i] := Done;
    b' := b.(vars := b.vars[i := Some(out)]);
    if p.hand[i].Some? && p.hand[i].value.matches(out) {
      var h := p.hand[i].value;
      b' := b'.(handBacks := b.handBacks[i := b.handBacks[i] + 1]);
      var limit := h.maxTimes;
      if limit == 0 {
        limit := DEFAULT_HAND_BACKS;
      }
      if b'.handBacks[i] > limit {
        b' := b'.(failed := Some("stage still failed validation"));
        return;
      }
      if r.stall.Some? {
        b' := b'.(failed := r.stall);
        return;
      }
      b' := b'.(feedback := b.feedback[h.to := out], resets := b.resets + [h.to]);
      return;
    }
    if p.stopWhen[i].Some? && p.stopWhen[i].value(out) {
      b' := b'.(stopped := true);
    }
  }

  lemma Advance(p: Plan, steps: seq<Step>, step: Step)
    requires ValidPlan(p) && IsRun(p, steps) && Enabled(p, After(p, steps), step)
    ensures IsRun(p, steps + [step]) && After(p, steps + [step]) == Apply(p, After(p, steps), step)
    ensures Measure(p, After(p, steps + [step])) < Measure(p, After(p, steps))
    ensures step.Start? ==> After(p, steps).inflight !! ReadySet(p, After(p, steps))
  {
    RunExtends(p, steps, step);
    RunInv(p, steps);
    StepInv(p, After(p, steps), step);
  }

  lemma StartNothing(p: Plan, s: Sched)
    requires ValidPlan(p) && Fits(p, s) && ReadySet(p, s) == {}
    ensures StartReady(p, s) == s
  {
  }

  /** The start loop as part of a run: it is one step, unless no stage is ready. */
  method Launch(p: Plan, state: array<Phase>, inflight: set<nat>, ghost steps: seq<Step>, ghost s: Sched)
    returns (inflight': set<nat>, ghost steps': seq<Step>, ghost s': Sched)
    requires ValidPlan(p) && IsRun(p, steps) && After(p, steps) == s && MayStart(s)
    requires state[..] == s.state && inflight == s.inflight
    modifies state
    ensures IsRun(p, steps') && After(p, steps') == s'
    ensures state[..] == s'.state && inflight' == s'.inflight
    ensures BooksOf(s') == BooksOf(s)
    ensures Measure(p, s') <= Measure(p, s)
    ensures s'.inflight == {} ==> ReadySet(p, s') == {}
  {
    steps', s' := steps, s;
    var begun := StartStages(p, state, s);
    inflight' := inflight + begun;
    if begun != {} {
      Advance(p, steps, Start);
      steps', s' := steps + [Start], StartReady(p, s);
    } else {
      StartNothing(p, s);
    }
  }

  /** What the loop does with any result, as a step of a run: after a failure the result is dropped. */
  method TakeResult(p: Plan, r: Arrival, state: array<Phase>, b: Books, ghost steps: seq<Step>, ghost s: Sched)
    returns (b': Books, ghost steps': seq<Step>, ghost s': Sched)
    requires ValidPlan(p) && IsRun(p, steps) && After(p, steps) == s && r.stage in s.inflight
    requires state[..] == s.state && b == BooksOf(s)
    modifies state
    ensures IsRun(p, steps') && After(p, steps') == s' && Measure(p, s') < Measure(p, s)
    ensures state[..] == s'.state && b' == BooksOf(s') && s'.inflight == s.inflight - {r.stage}
  {
    Advance(p, steps, Take(r));
    steps', s' := steps + [Take(r)], Receive(p, s, r);
    if b.failed.Some? {
      return b, steps', s';
    }
    if r.result.Err? {
      return b.(failed := Some(r.result.error)), steps', s';
    }
    b' := TakeOutput(p, r, state, b, s);
  }

  method ResetPhase(p: Plan, state: array<Phase>, resets: seq<nat>, ghost steps: seq<Step>, ghost s: Sched)
    returns (ghost steps': seq<Step>, ghost s': Sched)
    requires ValidPlan(p) && IsRun(p, steps) && After(p, steps) == s && s.inflight == {} && s.resets == resets != []
    requires state[..] == s.state
    modifies state
    ensures IsRun(p, steps') && After(p, steps') == s' && Measure(p, s') < Measure(p, s)
    ensures state[..] == s'.state && BooksOf(s') == BooksOf(s).(resets := []) && s'.inflight == {}
  {
    Advance(p, steps, Reset);
    ResetStages(p, state, resets, s);
    steps', s' := steps + [Reset], ApplyResets(p, s);
  }

  /** What is returned is what the results taken say. */
  ghost predicate Returned(p: Plan, arrivals: seq<Arrival>, failed: Option<string>, stopped: bool, vars: seq<Option<string>>) {
    && |p.hand| == |p.stopWhen| == |vars| && Known(p, arrivals)
    && FailedRightly(p, arrivals, failed) && StoppedRightly(p, arrivals, stopped)
    && (stopped ==> exists i: nat :: StopMatches(p, vars, i))
    && forall i :: 0 <= i < |vars| ==> OutputIs(p, arrivals, i, vars[i])
  }

  lemma ReturnsWhatCame(p: Plan, steps: seq<Step>)
    requires ValidPlan(p) && IsRun(p, steps)
    ensures var s := After(p, steps); Returned(p, Arrivals(steps), s.failed, s.stopped, s.vars)
  {
    RunsGoAsTheirResults(p, steps);
    var s := After(p, steps);
    if s.stopped {
      var i: nat :| StoppedBy(p, s, i);
      assert StopMatches(p, s.vars, i);
    }
  }

  /**
   * runStages. Which result arrives next, and what it is, is the environment's choice
   * among the stages in flight; `end` is the state the loop returns in.
   */
  method RunStages(p: Plan)
    returns (failed: Option<string>, stopped: bool, vars: seq<Option<string>>, ghost steps: seq<Step>)
    requires ValidPlan(p)
    ensures IsRun(p, steps) && Returns(p, After(p, steps))
    ensures var end := After(p, steps); end.failed == failed && end.stopped == stopped && end.vars == vars
    ensures failed.None? && !stopped ==> Settled(p, After(p, steps))
    ensures |vars| == |p.deps|
    ensures Returned(p, Arrivals(steps), failed, stopped, vars)
    ensures failed.None? && !stopped ==>
              forall i :: 0 <= i < |vars| ==> vars[i].Some? && !HandsBack(p, i, vars[i].value) && !Stops(p, i, vars[i].value)
  {
    var n := |p.deps|;
    var state := new Phase[n](_ => Pending);
    var b := Books(Repeat(n, 0), Repeat(n, ""), Repeat(n, None), None, false, []);
    var inflight: set<nat> := {};
    var active := 0;
    ghost var s := Init(p);
    steps := [];
    while true
      invariant IsRun(p, steps) && After(p, steps) == s
      invariant state[..] == s.state && b == BooksOf(s)
      invariant inflight == s.inflight && active == |inflight|
      invariant fresh(state)
      decreases Measure(p, s)
    {
      if b.failed.None? && !b.stopped && |b.resets| == 0 {
        inflight, steps, s := Launch(p, state, inflight, steps, s);
        active := |inflight|;
      }
      if active == 0 {
        assert inflight == {};
        if |b.resets| == 0 {
          NothingEnabled(p, s);
          ReturnsWhatCame(p, steps);
          if b.failed.None? && !b.stopped {
            ReturnSettles(p, steps);
          }
          return b.failed, b.stopped, b.vars, steps;
        }
        steps, s := ResetPhase(p, state, b.resets, steps, s);
        b := b.(resets := []);
        continue;
      }
      var i :| i in inflight;
      var result: Result<string>, stall: Option<string> := *, *;
      inflight, active := inflight - {i}, active - 1;
      b, steps, s := TakeResult(p, Arrival(i, result, stall), state, b, steps, s);
    }
  }
}
