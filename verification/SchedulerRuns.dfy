/** What holds over whole runs of the scheduler, whatever results arrive and in whatever order. */
module SchedulerRuns {
  import opened Wrappers
  import opened Graph
  import opened Workflow
  import opened HandBackBudget
  import opened Scheduler
  import opened SchedulerSteps

  lemma {:induction false} RunInv(p: Plan, steps: seq<Step>)
    requires ValidPlan(p) && IsRun(p, steps)
    ensures Inv(p, After(p, steps))
    ensures Measure(p, After(p, steps)) + |steps| <= Measure(p, Init(p))
  {
    if steps == [] {
      InitInv(p);
    } else {
      var last := |steps| - 1;
      RunInv(p, steps[..last]);
      StepInv(p, After(p, steps[..last]), steps[last]);
    }
  }

  /**
   * In every reachable state, failed, stopped or with resets due: a running or done stage
   * has all its dependencies done, and while no failure is recorded the stages in
   * flight are exactly the running ones.
   */
  lemma ReachableStateIsOrderly(p: Plan, steps: seq<Step>)
    requires ValidPlan(p) && IsRun(p, steps)
    ensures var s := After(p, steps);
            && DepsDone(p, s)
            && (s.failed.None? ==> s.inflight == set i: nat | i in Below(|p.deps|) && s.state[i] == Running)
  {
    RunInv(p, steps);
  }

  lemma FeedbackStep(p: Plan, s: Sched, r: Arrival, i: nat)
    requires ValidPlan(p) && Fits(p, s) && Outstanding(p, s) && DepsDone(p, s)
    requires r.stage in s.inflight && i < |p.deps|
    ensures var s' := Receive(p, s, r); s'.feedback[i] != s.feedback[i] ==> s.state[i] == Done || i == r.stage
    ensures var s' := Receive(p, s, r); s'.feedback[i] != s.feedback[i] ==> s'.state[i] == Done
  {
    if p.hand[r.stage].Some? {
      HandBackTargetDone(p, s, r.stage);
    }
  }

  /** Feedback is written only to a stage that is done, so it never changes under one that runs. */
  lemma FeedbackOnlyToDoneStages(p: Plan, steps: seq<Step>, step: Step, i: nat)
    requires ValidPlan(p) && IsRun(p, steps) && Enabled(p, After(p, steps), step) && i < |p.deps|
    ensures var s, s' := After(p, steps), Apply(p, After(p, steps), step);
            && (s'.feedback[i] != s.feedback[i] ==> s'.state[i] == Done)
            && (i in s.inflight && i in s'.inflight ==> s'.feedback[i] == s.feedback[i] == s.fed[i])
  {
    var s := After(p, steps);
    assert Outstanding(p, s) && DepsDone(p, s) && (i in s.inflight ==> s.feedback[i] == s.fed[i]) by {
      RunInv(p, steps);
    }
    if step.Take? {
      FeedbackStep(p, s, step.r, i);
    }
  }

  /** Every run ends, whatever order results arrive in, and starts at most n(1 + hand-back limits) stages. */
  lemma RunsEnd(p: Plan, steps: seq<Step>)
    requires ValidPlan(p) && IsRun(p, steps)
    ensures |steps| <= 3 * (|p.deps| * (1 + Limits(p)))
    ensures After(p, steps).starts <= |p.deps| * (1 + Limits(p))
  {
    RunInv(p, steps);
    InitInv(p);
    TimesIsProduct(|p.deps|, 1 + Limits(p));
  }

  /** Every stage is done, handed nothing back, and ran on its dependencies' final outputs and its last feedback. */
  ghost predicate Settled(p: Plan, s: Sched)
    requires ValidPlan(p) && Fits(p, s)
  {
    forall i :: 0 <= i < |p.deps| ==>
      && s.state[i] == Done && s.vars[i].Some?
      && !HandsBack(p, i, s.vars[i].value)
      && !Stops(p, i, s.vars[i].value)
      && s.fed[i] == s.feedback[i]
      && forall k :: 0 <= k < |p.deps[i]| ==> s.local[i][p.deps[i][k]] == s.vars[p.deps[i][k]]
  }

  lemma NothingEnabled(p: Plan, s: Sched)
    requires ValidPlan(p) && Fits(p, s) && s.inflight == {} && s.resets == []
    requires MayStart(s) ==> ReadySet(p, s) == {}
    ensures Returns(p, s)
  {
  }

  lemma ReturnDone(p: Plan, s: Sched)
    requires ValidPlan(p) && Fits(p, s) && Outstanding(p, s) && MayStart(s) && ReadySet(p, s) == {} && s.inflight == {}
    ensures forall i :: 0 <= i < |p.deps| ==> s.state[i] == Done
  {
    var open := PendingSet(s.state);
    if open != {} {
      AcyclicHasSource(p.deps, open);
      var x :| x in open && !EdgeInto(p.deps, x, open);
      assert x !in ReadySet(p, s);
      forall k | 0 <= k < |p.deps[x]| ensures s.state[p.deps[x][k]] == Done {
        assert p.deps[x][k] in p.deps[x];
      }
    }
    forall i | 0 <= i < |p.deps| ensures s.state[i] == Done {
      assert i !in open;
    }
  }

  /** A loop that returns without a failure or a stop has settled: in particular it never gets stuck. */
  lemma ReturnSettles(p: Plan, steps: seq<Step>)
    requires ValidPlan(p) && IsRun(p, steps)
    requires var s := After(p, steps); Returns(p, s) && s.failed.None? && !s.stopped
    ensures Settled(p, After(p, steps))
  {
    var s := After(p, steps);
    RunInv(p, steps);
    assert forall i :: i in s.inflight ==> Enabled(p, s, Take(Arrival(i, Err(""), None)));
    assert s.inflight == {};
    assert !Enabled(p, s, Reset) && !Enabled(p, s, Start);
    ReturnDone(p, s);
  }
}
