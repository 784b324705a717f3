/**
 * What a run of the scheduler has come to, told from nothing but the results it took, in
 * the order it took them.
 */
module SchedulerHistory {
  import opened Wrappers
  import opened Workflow
  import opened HandBackBudget
  import opened Scheduler

  /** The results taken, in order. */
  function Arrivals(steps: seq<Step>): seq<Arrival> {
    if steps == [] then []
    else
      var last := |steps| - 1;
      Arrivals(steps[..last]) + if steps[last].Take? then [steps[last].r] else []
  }

  /** The results are those of stages of the plan. */
  predicate Known(p: Plan, arrivals: seq<Arrival>) {
    |p.hand| == |p.stopWhen| && forall k :: 0 <= k < |arrivals| ==> arrivals[k].stage < |p.hand|
  }

  /** An output that matches its stage's hand-back pattern. */
  predicate AsksBack(p: Plan, r: Arrival)
    requires r.stage < |p.hand|
  {
    r.result.Ok? && p.hand[r.stage].Some? && p.hand[r.stage].value.matches(r.result.value)
  }

  /** How many outputs of stage i asked to hand work back. */
  function Asked(p: Plan, arrivals: seq<Arrival>, i: nat): nat
    requires Known(p, arrivals)
  {
    if arrivals == [] then 0
    else
      var last := |arrivals| - 1;
      Asked(p, arrivals[..last], i) + if arrivals[last].stage == i && AsksBack(p, arrivals[last]) then 1 else 0
  }

  /** A stage may hand work back as often as its limit says, or DEFAULT_HAND_BACKS times if that is zero. */
  predicate PastLimit(h: HandBack, times: nat) {
    if h.maxTimes == 0 then times > DEFAULT_HAND_BACKS else times > h.maxTimes
  }

  /** The k-th result is an error, or hands work back once too often or to a stalled draft. */
  predicate FailsAt(p: Plan, arrivals: seq<Arrival>, k: nat)
    requires Known(p, arrivals) && k < |arrivals|
  {
    var r := arrivals[k];
    r.result.Err?
    || (AsksBack(p, r) && (PastLimit(p.hand[r.stage].value, Asked(p, arrivals[..k + 1], r.stage)) || r.stall.Some?))
  }

  function ErrorAt(p: Plan, arrivals: seq<Arrival>, k: nat): string
    requires Known(p, arrivals) && k < |arrivals| && FailsAt(p, arrivals, k)
  {
    var r := arrivals[k];
    if r.result.Err? then r.result.error
    else if PastLimit(p.hand[r.stage].value, Asked(p, arrivals[..k + 1], r.stage)) then "stage still failed validation"
    else r.stall.value
  }

  /** None of the first k results fails the run. */
  predicate Calm(p: Plan, arrivals: seq<Arrival>, k: nat)
    requires Known(p, arrivals)
  {
    forall j :: 0 <= j < k && j < |arrivals| ==> !FailsAt(p, arrivals, j)
  }

  /** The run fails with the first of its results that fails it. */
  predicate FailsFirst(p: Plan, arrivals: seq<Arrival>, k: nat, error: string)
    requires Known(p, arrivals)
  {
    k < |arrivals| && Calm(p, arrivals, k) && FailsAt(p, arrivals, k) && ErrorAt(p, arrivals, k) == error
  }

  /** The k-th result is an output of stage i that counts: nothing before it failed the run. */
  predicate GivesOutput(p: Plan, arrivals: seq<Arrival>, i: nat, k: nat)
    requires Known(p, arrivals)
  {
    k < |arrivals| && Calm(p, arrivals, k) && arrivals[k].stage == i && arrivals[k].result.Ok?
  }

  /** The last output of stage i. */
  ghost predicate LastOutput(p: Plan, arrivals: seq<Arrival>, i: nat, k: nat, out: string)
    requires Known(p, arrivals)
  {
    GivesOutput(p, arrivals, i, k) && arrivals[k].result.value == out && forall j: nat :: GivesOutput(p, arrivals, i, j) ==> j <= k
  }

  /** The k-th result hands work back, and nothing up to it failed the run. */
  predicate HandsBackAt(p: Plan, arrivals: seq<Arrival>, k: nat)
    requires Known(p, arrivals)
  {
    k < |arrivals| && Calm(p, arrivals, k + 1) && AsksBack(p, arrivals[k])
  }

  predicate HandsTo(p: Plan, arrivals: seq<Arrival>, to: nat, k: nat)
    requires Known(p, arrivals)
  {
    HandsBackAt(p, arrivals, k) && p.hand[arrivals[k].stage].value.to == to
  }

  /** The last output handed back to this stage. */
  ghost predicate LastHandBack(p: Plan, arrivals: seq<Arrival>, to: nat, k: nat, out: string)
    requires Known(p, arrivals)
  {
    HandsTo(p, arrivals, to, k) && arrivals[k].result.value == out && forall j: nat :: HandsTo(p, arrivals, to, j) ==> j <= k
  }

  /** The k-th result is an output that hands nothing back and matches its stage's stop pattern. */
  predicate StopsAt(p: Plan, arrivals: seq<Arrival>, k: nat)
    requires Known(p, arrivals)
  {
    && k < |arrivals| && Calm(p, arrivals, k + 1)
    && arrivals[k].result.Ok? && !AsksBack(p, arrivals[k])
    && p.stopWhen[arrivals[k].stage].Some? && p.stopWhen[arrivals[k].stage].value(arrivals[k].result.value)
  }

  // ---- The loop's variables ----

  ghost predicate FailedRightly(p: Plan, arrivals: seq<Arrival>, failed: Option<string>)
    requires Known(p, arrivals)
  {
    match failed
    case None => Calm(p, arrivals, |arrivals|)
    case Some(error) => exists k: nat :: FailsFirst(p, arrivals, k, error)
  }

  ghost predicate StoppedRightly(p: Plan, arrivals: seq<Arrival>, stopped: bool)
    requires Known(p, arrivals)
  {
    stopped <==> exists k: nat :: StopsAt(p, arrivals, k)
  }

  ghost predicate OutputIs(p: Plan, arrivals: seq<Arrival>, i: nat, out: Option<string>)
    requires Known(p, arrivals)
  {
    match out
    case None => forall k: nat :: !GivesOutput(p, arrivals, i, k)
    case Some(text) => exists k: nat :: LastOutput(p, arrivals, i, k, text)
  }

  ghost predicate FeedbackIs(p: Plan, arrivals: seq<Arrival>, to: nat, text: string)
    requires Known(p, arrivals)
  {
    if exists k: nat :: HandsTo(p, arrivals, to, k) then exists k: nat :: LastHandBack(p, arrivals, to, k, text) else text == ""
  }

  ghost predicate CountsRight(p: Plan, arrivals: seq<Arrival>, handBacks: seq<nat>)
    requires Known(p, arrivals)
  {
    forall i :: 0 <= i < |handBacks| ==> handBacks[i] == Asked(p, arrivals, i)
  }

  ghost predicate Told(p: Plan, arrivals: seq<Arrival>, s: Sched) {
    && Known(p, arrivals)
    && FailedRightly(p, arrivals, s.failed)
    && StoppedRightly(p, arrivals, s.stopped)
    && (forall i :: 0 <= i < |s.vars| ==> OutputIs(p, arrivals, i, s.vars[i]))
    && (forall to :: 0 <= to < |s.feedback| ==> FeedbackIs(p, arrivals, to, s.feedback[to]))
    && (s.failed.None? ==> CountsRight(p, arrivals, s.handBacks))
  }

  // ---- One more result ----

  lemma SamePrefix(p: Plan, arrivals: seq<Arrival>, r: Arrival, k: nat)
    requires Known(p, arrivals + [r]) && k <= |arrivals|
    ensures Known(p, arrivals) && Calm(p, arrivals + [r], k) == Calm(p, arrivals, k)
    ensures k < |arrivals| ==> FailsAt(p, arrivals + [r], k) == FailsAt(p, arrivals, k)
    ensures k < |arrivals| && FailsAt(p, arrivals, k) ==> ErrorAt(p, arrivals + [r], k) == ErrorAt(p, arrivals, k)
  {
    var longer := arrivals + [r];
    forall j | 0 <= j < |arrivals| ensures j < |longer| && longer[j] == arrivals[j] && longer[..j + 1] == arrivals[..j + 1] {
    }
    forall j | 0 <= j < |arrivals| ensures FailsAt(p, longer, j) == FailsAt(p, arrivals, j) {
    }
  }

  lemma SameOutputs(p: Plan, arrivals: seq<Arrival>, r: Arrival, i: nat, k: nat)
    requires Known(p, arrivals + [r]) && k < |arrivals|
    ensures Known(p, arrivals)
    ensures GivesOutput(p, arrivals + [r], i, k) == GivesOutput(p, arrivals, i, k)
    ensures HandsTo(p, arrivals + [r], i, k) == HandsTo(p, arrivals, i, k)
    ensures StopsAt(p, arrivals + [r], k) == StopsAt(p, arrivals, k)
  {
    SamePrefix(p, arrivals, r, k);
    SamePrefix(p, arrivals, r, k + 1);
  }

  lemma AskedOneMore(p: Plan, arrivals: seq<Arrival>, r: Arrival, i: nat)
    requires Known(p, arrivals + [r]) && r.stage < |p.hand|
    ensures Known(p, arrivals)
    ensures Asked(p, arrivals + [r], i) == Asked(p, arrivals, i) + if r.stage == i && AsksBack(p, r) then 1 else 0
  {
    var longer := arrivals + [r];
    assert longer[..|longer| - 1] == arrivals;
    assert forall k :: 0 <= k < |arrivals| ==> longer[k] == arrivals[k];
  }

  /** A result that comes after a failure changes nothing. */
  lemma LateResult(p: Plan, arrivals: seq<Arrival>, s: Sched, r: Arrival)
    requires Told(p, arrivals, s) && s.failed.Some? && Known(p, arrivals + [r])
    ensures Told(p, arrivals + [r], s)
  {
    var longer, n := arrivals + [r], |arrivals|;
    SamePrefix(p, arrivals, r, n);
    var f: nat :| FailsFirst(p, arrivals, f, s.failed.value);
    SamePrefix(p, arrivals, r, f);
    assert FailsFirst(p, longer, f, s.failed.value);
    SameHistory(p, arrivals, r, s);
  }

  /** Whatever is known of a run stays known when its next result counts for nothing. */
  lemma SameHistory(p: Plan, arrivals: seq<Arrival>, r: Arrival, s: Sched)
    requires Told(p, arrivals, s) && Known(p, arrivals + [r]) && !Calm(p, arrivals, |arrivals|)
    ensures StoppedRightly(p, arrivals + [r], s.stopped)
    ensures forall i :: 0 <= i < |s.vars| ==> OutputIs(p, arrivals + [r], i, s.vars[i])
    ensures forall to :: 0 <= to < |s.feedback| ==> FeedbackIs(p, arrivals + [r], to, s.feedback[to])
  {
    var n := |arrivals|;
    SamePrefix(p, arrivals, r, n);
    StopsSame(p, arrivals, r, s.stopped);
    forall i | 0 <= i < |s.vars| ensures OutputIs(p, arrivals + [r], i, s.vars[i]) {
      OutputSame(p, arrivals, r, i, s.vars[i]);
    }
    forall to | 0 <= to < |s.feedback| ensures FeedbackIs(p, arrivals + [r], to, s.feedback[to]) {
      FeedbackSame(p, arrivals, r, to, s.feedback[to]);
    }
  }

  lemma StopsSame(p: Plan, arrivals: seq<Arrival>, r: Arrival, stopped: bool)
    requires Known(p, arrivals + [r]) && Known(p, arrivals) && StoppedRightly(p, arrivals, stopped)
    requires !StopsAt(p, arrivals + [r], |arrivals|)
    ensures StoppedRightly(p, arrivals + [r], stopped)
  {
    forall k: nat | k < |arrivals| ensures StopsAt(p, arrivals + [r], k) == StopsAt(p, arrivals, k) {
      SameOutputs(p, arrivals, r, 0, k);
    }
  }

  lemma OutputSame(p: Plan, arrivals: seq<Arrival>, r: Arrival, i: nat, out: Option<string>)
    requires Known(p, arrivals + [r]) && Known(p, arrivals) && OutputIs(p, arrivals, i, out)
    requires !GivesOutput(p, arrivals + [r], i, |arrivals|)
    ensures OutputIs(p, arrivals + [r], i, out)
  {
    forall k: nat | k < |arrivals| ensures GivesOutput(p, arrivals + [r], i, k) == GivesOutput(p, arrivals, i, k) {
      SameOutputs(p, arrivals, r, i, k);
    }
    if out.Some? {
      var k: nat :| LastOutput(p, arrivals, i, k, out.value);
      assert LastOutput(p, arrivals + [r], i, k, out.value);
    }
  }

  lemma FeedbackSame(p: Plan, arrivals: seq<Arrival>, r: Arrival, to: nat, text: string)
    requires Known(p, arrivals + [r]) && Known(p, arrivals) && FeedbackIs(p, arrivals, to, text)
    requires !HandsTo(p, arrivals + [r], to, |arrivals|)
    ensures FeedbackIs(p, arrivals + [r], to, text)
  {
    forall k: nat | k < |arrivals| ensures HandsTo(p, arrivals + [r], to, k) == HandsTo(p, arrivals, to, k) {
      SameOutputs(p, arrivals, r, to, k);
    }
    if k: nat :| HandsTo(p, arrivals, to, k) {
      var last: nat :| LastHandBack(p, arrivals, to, last, text);
      assert LastHandBack(p, arrivals + [r], to, last, text);
    }
  }

  /** What the next result comes to while nothing has failed. */
  lemma NextResult(p: Plan, arrivals: seq<Arrival>, s: Sched, r: Arrival)
    requires Told(p, arrivals, s) && s.failed.None? && Known(p, arrivals + [r])
    requires |p.hand| == |p.deps| && Fits(p, s) && r.stage in s.inflight
    requires p.hand[r.stage].Some? ==> p.hand[r.stage].value.to < |p.deps|
    ensures var s' := Receive(p, s, r);
            && FailedRightly(p, arrivals + [r], s'.failed)
            && (s'.failed.None? ==> CountsRight(p, arrivals + [r], s'.handBacks))
            && (s'.failed.None? <==> !FailsAt(p, arrivals + [r], |arrivals|))
            && Calm(p, arrivals + [r], |arrivals|)
  {
    var s', longer, n := Receive(p, s, r), arrivals + [r], |arrivals|;
    SamePrefix(p, arrivals, r, n);
    assert longer[..n + 1] == longer && longer[n] == r;
    forall i: nat ensures Asked(p, longer, i) == Asked(p, arrivals, i) + if r.stage == i && AsksBack(p, r) then 1 else 0 {
      AskedOneMore(p, arrivals, r, i);
    }
    if s'.failed.Some? {
      assert FailsFirst(p, longer, n, s'.failed.value);
    }
  }

  lemma TakeTold(p: Plan, arrivals: seq<Arrival>, s: Sched, r: Arrival)
    requires Told(p, arrivals, s) && |p.stopWhen| == |p.hand| == |p.deps| && Fits(p, s) && r.stage in s.inflight
    requires p.hand[r.stage].Some? ==> p.hand[r.stage].value.to < |p.deps|
    ensures Told(p, arrivals + [r], Receive(p, s, r))
  {
    assert Known(p, arrivals + [r]);
    var s', longer, n := Receive(p, s, r), arrivals + [r], |arrivals|;
    if s.failed.Some? {
      LateResult(p, arrivals, s, r);
    } else {
      NextResult(p, arrivals, s, r);
      NextStop(p, arrivals, s, r);
      forall i | 0 <= i < |s'.vars| ensures OutputIs(p, longer, i, s'.vars[i]) {
        NextOutput(p, arrivals, s, r, i);
      }
      forall to | 0 <= to < |s'.feedback| ensures FeedbackIs(p, longer, to, s'.feedback[to]) {
        NextFeedback(p, arrivals, s, r, to);
      }
    }
  }

  lemma NextStop(p: Plan, arrivals: seq<Arrival>, s: Sched, r: Arrival)
    requires Told(p, arrivals, s) && s.failed.None? && Known(p, arrivals + [r])
    requires |p.hand| == |p.deps| && Fits(p, s) && r.stage in s.inflight
    requires p.hand[r.stage].Some? ==> p.hand[r.stage].value.to < |p.deps|
    ensures StoppedRightly(p, arrivals + [r], Receive(p, s, r).stopped)
  {
    var longer, n := arrivals + [r], |arrivals|;
    NextResult(p, arrivals, s, r);
    assert longer[n] == r;
    if StopsAt(p, longer, n) {
    } else {
      StopsSame(p, arrivals, r, s.stopped);
    }
  }

  lemma NextOutput(p: Plan, arrivals: seq<Arrival>, s: Sched, r: Arrival, i: nat)
    requires Told(p, arrivals, s) && s.failed.None? && Known(p, arrivals + [r])
    requires |p.hand| == |p.deps| && Fits(p, s) && r.stage in s.inflight && i < |s.vars|
    requires p.hand[r.stage].Some? ==> p.hand[r.stage].value.to < |p.deps|
    ensures OutputIs(p, arrivals + [r], i, Receive(p, s, r).vars[i])
  {
    var longer, n := arrivals + [r], |arrivals|;
    NextResult(p, arrivals, s, r);
    assert longer[n] == r;
    if GivesOutput(p, longer, i, n) {
      assert LastOutput(p, longer, i, n, r.result.value);
    } else {
      OutputSame(p, arrivals, r, i, s.vars[i]);
    }
  }

  lemma NextFeedback(p: Plan, arrivals: seq<Arrival>, s: Sched, r: Arrival, to: nat)
    requires Told(p, arrivals, s) && s.failed.None? && Known(p, arrivals + [r])
    requires |p.hand| == |p.deps| && Fits(p, s) && r.stage in s.inflight && to < |s.feedback|
    requires p.hand[r.stage].Some? ==> p.hand[r.stage].value.to < |p.deps|
    ensures FeedbackIs(p, arrivals + [r], to, Receive(p, s, r).feedback[to])
  {
    var longer, n := arrivals + [r], |arrivals|;
    NextResult(p, arrivals, s, r);
    assert longer[n] == r;
    if HandsTo(p, longer, to, n) {
      assert LastHandBack(p, longer, to, n, r.result.value);
    } else {
      FeedbackSame(p, arrivals, r, to, s.feedback[to]);
    }
  }

  // ---- Over whole runs ----

  lemma StartTold(p: Plan)
    requires ValidPlan(p)
    ensures Told(p, [], Init(p))
  {
  }

  lemma {:induction false} RunTold(p: Plan, steps: seq<Step>)
    requires ValidPlan(p) && IsRun(p, steps)
    ensures Told(p, Arrivals(steps), After(p, steps))
  {
    if steps == [] {
      StartTold(p);
    } else {
      var last := |steps| - 1;
      RunTold(p, steps[..last]);
      if steps[last].Take? {
        TakeTold(p, Arrivals(steps[..last]), After(p, steps[..last]), steps[last].r);
      } else {
        assert Arrivals(steps) == Arrivals(steps[..last]);
      }
    }
  }

  /** A stage's output hands nothing back and matches its stop pattern. */
  predicate StopMatches(p: Plan, vars: seq<Option<string>>, i: nat)
    requires |p.hand| == |p.stopWhen| == |vars|
  {
    && i < |vars| && vars[i].Some?
    && !(p.hand[i].Some? && p.hand[i].value.matches(vars[i].value))
    && p.stopWhen[i].Some? && p.stopWhen[i].value(vars[i].value)
  }

  /** A stage whose output stopped the run, and that has not been started again. */
  predicate StoppedBy(p: Plan, s: Sched, i: nat)
    requires |p.hand| == |p.stopWhen| == |s.vars|
  {
    StopMatches(p, s.vars, i) && i !in s.inflight
  }

  lemma {:induction false} RunStoppedBy(p: Plan, steps: seq<Step>) returns (i: nat)
    requires ValidPlan(p) && IsRun(p, steps) && After(p, steps).stopped
    ensures StoppedBy(p, After(p, steps), i)
  {
    assert steps != [];
    var last := |steps| - 1;
    var s := After(p, steps[..last]);
    if s.stopped {
      i := RunStoppedBy(p, steps[..last]);
    } else {
      i := steps[last].r.stage;
    }
  }

  /**
   * What a run has come to is what the results it took say: it has failed exactly if one of
   * them fails it, with the first such one's error; it has stopped exactly if an output
   * before that hands nothing back and matches its stop pattern, which then is still its
   * stage's output; each stage's output is the last one taken from it, and its feedback the
   * last output handed back to it.
   */
  lemma RunsGoAsTheirResults(p: Plan, steps: seq<Step>)
    requires ValidPlan(p) && IsRun(p, steps)
    ensures var s, arrivals := After(p, steps), Arrivals(steps);
            && Known(p, arrivals)
            && FailedRightly(p, arrivals, s.failed)
            && StoppedRightly(p, arrivals, s.stopped)
            && (s.stopped ==> exists i: nat :: StoppedBy(p, s, i))
            && (forall i :: 0 <= i < |s.vars| ==> OutputIs(p, arrivals, i, s.vars[i]))
            && (forall to :: 0 <= to < |s.feedback| ==> FeedbackIs(p, arrivals, to, s.feedback[to]))
  {
    RunTold(p, steps);
    if After(p, steps).stopped {
      var i := RunStoppedBy(p, steps);
    }
  }

  /** The run's latest step takes an output that hands work back, with nothing failed. */
  predicate HandsBackLast(p: Plan, steps: seq<Step>) {
    && steps != [] && steps[|steps| - 1].Take? && Known(p, Arrivals(steps)) && Arrivals(steps) != []
    && HandsBackAt(p, Arrivals(steps), |Arrivals(steps)| - 1)
  }

  lemma HandBackOwesReset(p: Plan, steps: seq<Step>)
    requires ValidPlan(p) && IsRun(p, steps) && HandsBackLast(p, steps)
    ensures After(p, steps).resets != []
  {
    var last := |steps| - 1;
    var s, r, before := After(p, steps[..last]), steps[last].r, Arrivals(steps[..last]);
    RunTold(p, steps[..last]);
    assert Arrivals(steps) == before + [r];
    SamePrefix(p, before, r, |before|);
    assert s.failed.None?;
    NextResult(p, before, s, r);
  }

  lemma ResetsStay(p: Plan, s: Sched, step: Step)
    requires ValidPlan(p) && Fits(p, s) && Enabled(p, s, step) && !step.Reset?
    ensures s.resets != [] ==> Apply(p, s, step).resets != []
  {
  }

  lemma {:induction false} ResetStaysOwed(p: Plan, steps: seq<Step>, a: nat)
    requires ValidPlan(p) && IsRun(p, steps) && a < |steps| && IsRun(p, steps[..a + 1]) && After(p, steps[..a + 1]).resets != []
    requires forall c :: a < c < |steps| ==> !steps[c].Reset?
    ensures After(p, steps).resets != []
  {
    var last := |steps| - 1;
    if a == last {
      assert steps[..a + 1] == steps;
    } else {
      assert steps[..last][..a + 1] == steps[..a + 1];
      ResetStaysOwed(p, steps[..last], a);
      ResetsStay(p, After(p, steps[..last]), steps[last]);
    }
  }

  lemma {:induction false} PrefixRuns(p: Plan, steps: seq<Step>, k: nat)
    requires ValidPlan(p) && IsRun(p, steps) && k <= |steps|
    ensures IsRun(p, steps[..k])
  {
    if k == |steps| {
      assert steps[..k] == steps;
    } else {
      var last := |steps| - 1;
      assert steps[..last][..k] == steps[..k];
      PrefixRuns(p, steps[..last], k);
    }
  }

  /**
   * Stages start only while no result has failed or stopped the run, and after an output
   * that handed work back only once the reset for it has been made.
   */
  lemma StartsWait(p: Plan, steps: seq<Step>, b: nat, a: nat)
    requires ValidPlan(p) && IsRun(p, steps) && b < |steps| && steps[b].Start?
    ensures var before := Arrivals(steps[..b]);
            Known(p, before) && Calm(p, before, |before|) && !exists k: nat :: StopsAt(p, before, k)
    ensures a < b && HandsBackLast(p, steps[..a + 1]) ==> exists c :: a < c < b && steps[c].Reset?
  {
    PrefixRuns(p, steps, b);
    PrefixRuns(p, steps, b + 1);
    assert steps[..b + 1][..b] == steps[..b];
    RunTold(p, steps[..b]);
    if a < b && HandsBackLast(p, steps[..a + 1]) {
      PrefixRuns(p, steps, a + 1);
      HandBackOwesReset(p, steps[..a + 1]);
      if forall c :: a < c < b ==> !steps[c].Reset? {
        assert steps[..b][..a + 1] == steps[..a + 1];
        ResetStaysOwed(p, steps[..b], a);
        assert false;
      }
    }
  }
}
