/** Every step of the scheduler keeps its invariant and makes its measure smaller. */
module SchedulerSteps {
  import opened Collections
  import opened Wrappers
  import opened Graph
  import opened Workflow
  import opened HandBackBudget
  import opened Scheduler

  lemma InitInv(p: Plan)
    requires ValidPlan(p)
    ensures Inv(p, Init(p))
    ensures Measure(p, Init(p)) == 3 * Times(|p.deps|, 1 + Limits(p))
  {
    InitBudget(p, Init(p));
  }

  lemma InitBudget(p: Plan, s: Sched)
    requires ValidPlan(p) && Fits(p, s) && s.resets == []
    requires forall i :: 0 <= i < |p.deps| ==> s.state[i] == Pending && s.handBacks[i] == 0
    ensures StartsLeft(p, s) == Times(|p.deps|, 1 + Limits(p))
  {
    LeftAtStart(p, s.handBacks);
    AllPending(s.state);
    TimesOneMore(|p.deps|, Limits(p));
  }

  lemma AllPending(state: seq<Phase>)
    requires forall i :: 0 <= i < |state| ==> state[i] == Pending
    ensures |PendingSet(state)| == |state|
  {
    assert PendingSet(state) == Below(|state|);
  }

  lemma StartOrderly(p: Plan, s: Sched)
    requires ValidPlan(p) && Orderly(p, s) && MayStart(s)
    ensures Orderly(p, StartReady(p, s))
  {
  }

  lemma StartCount(p: Plan, s: Sched)
    requires ValidPlan(p) && Fits(p, s)
    ensures StartsLeft(p, StartReady(p, s)) + |ReadySet(p, s)| == StartsLeft(p, s)
  {
    PendingSplit(p, s);
    SameBudget(p, s, StartReady(p, s), |ReadySet(p, s)|);
  }

  lemma SameBudget(p: Plan, s: Sched, s': Sched, begun: nat)
    requires ValidPlan(p) && Fits(p, s) && Fits(p, s')
    requires s'.handBacks == s.handBacks && s'.resets == s.resets && |PendingSet(s.state)| == |PendingSet(s'.state)| + begun
    ensures StartsLeft(p, s') + begun == StartsLeft(p, s)
  {
  }

  lemma StartInflight(p: Plan, s: Sched)
    requires ValidPlan(p) && Fits(p, s) && Outstanding(p, s)
    ensures |StartReady(p, s).inflight| == |s.inflight| + |ReadySet(p, s)|
  {
    assert s.inflight !! ReadySet(p, s);
  }

  lemma PendingSplit(p: Plan, s: Sched)
    requires ValidPlan(p) && Fits(p, s)
    ensures |PendingSet(s.state)| == |PendingSet(StartReady(p, s).state)| + |ReadySet(p, s)|
  {
    var left, ready := PendingSet(StartReady(p, s).state), ReadySet(p, s);
    assert PendingSet(s.state) == left + ready && left !! ready;
  }

  lemma PendingUnchanged(state: seq<Phase>, i: nat)
    requires i < |state| && state[i] == Running
    ensures PendingSet(state[i := Done]) == PendingSet(state)
  {
  }

  lemma StartInv(p: Plan, s: Sched)
    requires ValidPlan(p) && Inv(p, s) && MayStart(s)
    ensures Inv(p, StartReady(p, s))
    ensures ReadySet(p, s) != {} ==> Measure(p, StartReady(p, s)) < Measure(p, s)
  {
    StartOrderly(p, s);
    StartCount(p, s);
    StartInflight(p, s);
  }

  /** Everything a running or done stage depends on, however indirectly, is done. */
  lemma {:induction false} PathDone(p: Plan, s: Sched, path: seq<nat>)
    requires ValidPlan(p) && Fits(p, s) && DepsDone(p, s)
    requires IsPath(p.deps, path) && s.state[path[0]] != Pending
    ensures |path| > 1 ==> s.state[path[|path| - 1]] == Done
  {
    if |path| > 1 {
      assert path[1] in p.deps[path[0]];
      var k :| 0 <= k < |p.deps[path[0]]| && p.deps[path[0]][k] == path[1];
      PathDone(p, s, path[1..]);
    }
  }

  lemma HandBackTargetDone(p: Plan, s: Sched, i: nat)
    requires ValidPlan(p) && Fits(p, s) && DepsDone(p, s)
    requires i < |p.deps| && s.state[i] != Pending && p.hand[i].Some?
    ensures p.hand[i].value.to == i || s.state[p.hand[i].value.to] == Done
  {
    var to := p.hand[i].value.to;
    var path :| Connects(p.deps, path, i, to);
    PathDone(p, s, path);
  }

  /** Nothing that depends on a running stage is running or done. */
  lemma NoDependentStarted(p: Plan, s: Sched, d: nat)
    requires ValidPlan(p) && Fits(p, s) && DepsDone(p, s) && d < |p.deps| && s.state[d] == Running
    ensures forall i, k :: 0 <= i < |p.deps| && 0 <= k < |p.deps[i]| && p.deps[i][k] == d ==> s.state[i] == Pending
  {
  }

  lemma ReceiveDone(p: Plan, s: Sched, r: Arrival)
    requires ValidPlan(p) && Fits(p, s) && Outstanding(p, s) && DepsDone(p, s) && r.stage in s.inflight
    ensures Outstanding(p, Receive(p, s, r)) && DepsDone(p, Receive(p, s, r))
  {
    NoDependentStarted(p, s, r.stage);
  }

  lemma ReceiveInputs(p: Plan, s: Sched, r: Arrival)
    requires ValidPlan(p) && Fits(p, s) && DepsDone(p, s) && FreshInputs(p, s)
    requires r.stage in s.inflight && s.state[r.stage] == Running
    ensures FreshInputs(p, Receive(p, s, r))
  {
    NoDependentStarted(p, s, r.stage);
  }

  lemma ReceiveOwed(p: Plan, s: Sched, r: Arrival)
    requires ValidPlan(p) && Fits(p, s) && Outstanding(p, s) && DepsDone(p, s) && FreshFeedback(p, s) && Owed(p, s)
    requires r.stage in s.inflight && s.failed.None? && r.result.Ok?
    ensures var s' := Receive(p, s, r); FreshFeedback(p, s') && Owed(p, s')
  {
    var s' := Receive(p, s, r);
    var i := r.stage;
    if HandsBack(p, i, r.result.value) && s'.failed.None? {
      HandBackTargetDone(p, s, i);
      HandBackResetsItsStage(p, i);
      assert s'.resets[|s.resets|] == p.hand[i].value.to;
      assert IsReset(p, s'.resets, i);
      forall j | IsReset(p, s.resets, j) ensures IsReset(p, s'.resets, j) {
        var k :| 0 <= k < |s.resets| && Reaches(p.dependents, s.resets[k], j);
        assert s'.resets[k] == s.resets[k];
      }
      assert forall j :: j in s.resets ==> j in s'.resets;
    }
  }

  lemma ReceivePending(p: Plan, s: Sched, r: Arrival)
    requires ValidPlan(p) && Fits(p, s) && r.stage in s.inflight && s.state[r.stage] == Running
    ensures PendingSet(Receive(p, s, r).state) == PendingSet(s.state)
    ensures |s.inflight| == |Receive(p, s, r).inflight| + 1
  {
    PendingUnchanged(s.state, r.stage);
    assert Receive(p, s, r).inflight == s.inflight - {r.stage};
  }

  lemma ReceiveBudget(p: Plan, s: Sched, r: Arrival)
    requires ValidPlan(p) && Fits(p, s) && r.stage in s.inflight
    ensures var s' := Receive(p, s, r);
            Left(p, s'.handBacks) + |s'.resets| <= Left(p, s.handBacks) + |s.resets| && |s'.resets| <= |s.resets| + 1
  {
    LeftAfterHandBack(p, s.handBacks, r.stage);
  }

  lemma TakenCounts(p: Plan, s: Sched, s': Sched)
    requires ValidPlan(p) && Fits(p, s) && Fits(p, s')
    requires PendingSet(s'.state) == PendingSet(s.state) && |s.inflight| == |s'.inflight| + 1
    requires Left(p, s'.handBacks) + |s'.resets| <= Left(p, s.handBacks) + |s.resets| && |s'.resets| <= |s.resets| + 1
    ensures StartsLeft(p, s') <= StartsLeft(p, s) && Measure(p, s') < Measure(p, s)
  {
    TimesMono(|p.deps|, Left(p, s'.handBacks) + |s'.resets|, Left(p, s.handBacks) + |s.resets|);
  }

  lemma ReceiveCount(p: Plan, s: Sched, r: Arrival)
    requires ValidPlan(p) && Fits(p, s) && r.stage in s.inflight && s.state[r.stage] == Running
    ensures StartsLeft(p, Receive(p, s, r)) <= StartsLeft(p, s)
    ensures Measure(p, Receive(p, s, r)) < Measure(p, s)
  {
    ReceivePending(p, s, r);
    ReceiveBudget(p, s, r);
    TakenCounts(p, s, Receive(p, s, r));
  }

  lemma ReceiveInv(p: Plan, s: Sched, r: Arrival)
    requires ValidPlan(p) && Inv(p, s) && r.stage in s.inflight
    ensures Inv(p, Receive(p, s, r))
    ensures Measure(p, Receive(p, s, r)) < Measure(p, s)
  {
    ReceiveCount(p, s, r);
    ReceiveDone(p, s, r);
    ReceiveInputs(p, s, r);
    if s.failed.None? && r.result.Ok? {
      ReceiveOwed(p, s, r);
    }
  }

  lemma ResetOrderly(p: Plan, s: Sched)
    requires ValidPlan(p) && Orderly(p, s) && s.inflight == {}
    ensures Orderly(p, ApplyResets(p, s))
  {
    var s' := ApplyResets(p, s);
    var n := |p.deps|;
    forall i, k | 0 <= i < n && s'.state[i] != Pending && 0 <= k < |p.deps[i]|
      ensures s'.state[p.deps[i][k]] == Done
    {
      var d := p.deps[i][k];
      if IsReset(p, s.resets, d) {
        var m :| 0 <= m < |s.resets| && Reaches(p.dependents, s.resets[m], d);
        assert d in p.deps[i];
        ReachesStep(p.dependents, s.resets[m], d, i);
        assert IsReset(p, s.resets, i);
      }
    }
    forall i | 0 <= i < n && i in s.resets ensures IsReset(p, s.resets, i) {
      var m :| 0 <= m < |s.resets| && s.resets[m] == i;
      ReachesSelf(p.dependents, i);
    }
  }

  lemma ResetCount(p: Plan, s: Sched)
    requires ValidPlan(p) && Fits(p, s) && s.resets != []
    ensures StartsLeft(p, ApplyResets(p, s)) <= StartsLeft(p, s)
  {
    SubsetSize(PendingSet(ApplyResets(p, s).state), Below(|p.deps|));
    ResetBudget(p, s, ApplyResets(p, s));
  }

  /** A reset that was due pays for all the stages it makes pending. */
  lemma ResetBudget(p: Plan, s: Sched, s': Sched)
    requires ValidPlan(p) && Fits(p, s) && Fits(p, s') && s.resets != []
    requires s'.handBacks == s.handBacks && s'.resets == [] && |PendingSet(s'.state)| <= |p.deps|
    ensures StartsLeft(p, s') <= StartsLeft(p, s)
  {
    TimesMono(|p.deps|, Left(p, s.handBacks) + 1, Left(p, s.handBacks) + |s.resets|);
  }

  lemma ResetInv(p: Plan, s: Sched)
    requires ValidPlan(p) && Inv(p, s) && s.inflight == {} && s.resets != []
    ensures Inv(p, ApplyResets(p, s))
    ensures Measure(p, ApplyResets(p, s)) < Measure(p, s)
  {
    ResetOrderly(p, s);
    ResetCount(p, s);
  }

  lemma StepInv(p: Plan, s: Sched, step: Step)
    requires ValidPlan(p) && Inv(p, s) && Enabled(p, s, step)
    ensures Inv(p, Apply(p, s, step)) && Measure(p, Apply(p, s, step)) < Measure(p, s)
  {
    match step
    case Start => StartInv(p, s);
    case Take(r) => ReceiveInv(p, s, r);
    case Reset => ResetInv(p, s);
  }
}
