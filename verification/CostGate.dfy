/**
 * The gate at which a run past its cost threshold asks a human, once, whether it may call
 * models again, under any interleaving of callers, ended contexts and answers.
 */
module CostGate {
  import opened Wrappers

  /**
   * costGate. Channels are numbered in the order they were made, one for each time a
   * human was asked; closed[ch] says that the asker is done.
   */
  datatype Gate = Gate(asking: Option<nat>, answered: bool, err: Option<string>, closed: seq<bool>)

  datatype Decision = Told(err: Option<string>) | Wait(ch: nat) | Ask(ch: nat)

  /** How asking a human ends: with an answer, or with the asker's own error. */
  datatype Verdict = Approved | Refused(status: string) | Failed

  function Looked(g: Gate): (Gate, Decision) {
    if g.answered then (g, Told(g.err))
    else if g.asking.Some? then (g, Wait(g.asking.value))
    else (g.(asking := Some(|g.closed|), closed := g.closed + [false]), Ask(|g.closed|))
  }

  function Settled(g: Gate, ch: nat, verdict: Verdict): Gate
    requires ch < |g.closed|
  {
    var freed := g.(asking := None, closed := g.closed[ch := true]);
    match verdict
    case Failed => freed
    case Approved => freed.(answered := true)
    case Refused(status) => freed.(answered := true, err := Some(status))
  }

  /** The shared object; each method is a section under its lock. */
  class CostGate {
    var asking: Option<nat>
    var answered: bool
    var err: Option<string>
    var closed: seq<bool>

    function State(): Gate
      reads this
    {
      Gate(asking, answered, err, closed)
    }

    constructor ()
      ensures State() == Gate(None, false, None, [])
    {
      asking, answered, err, closed := None, false, None, [];
    }

    /** Each turn of checkCost's loop, up to the wait, the answer or the question. */
    method Look() returns (d: Decision)
      modifies this
      ensures (State(), d) == Looked(old(State()))
    {
      if !answered && asking.Some? {
        return Wait(asking.value);
      }
      if answered {
        return Told(err);
      }
      d := Ask(|closed|);
      asking, closed := Some(|closed|), closed + [false];
    }

    /** The end of checkCost, for the caller that asked. */
    method Settle(ch: nat, verdict: Verdict) returns (r: Result<()>)
      requires ch < |closed|
      modifies this
      ensures State() == Settled(old(State()), ch, verdict)
      ensures verdict.Failed? ==> r.Err? && answered == old(answered) && err == old(err)
      ensures verdict.Approved? ==> answered && err == old(err) && r == if old(err).None? then Ok(()) else Err(old(err).value)
      ensures verdict.Refused? ==> answered && err == Some(verdict.status) && r == Err(verdict.status)
    {
      asking := None;
      if verdict.Failed? {
        closed := closed[ch := true];
        return Err("the asker's context ended");
      }
      answered := true;
      if verdict.Refused? {
        err := Some(verdict.status);
      }
      closed := closed[ch := true];
      r := if err.None? then Ok(()) else Err(err.value);
    }
  }

  // ---- Any interleaving of callers ----

  datatype Caller =
    | Entering
    | Waiting(ch: nat)
    | Asking(ch: nat)
    | Returned(told: Option<Option<string>>) // the gate's answer, or None for the caller's own error

  datatype System = System(gate: Gate, callers: seq<Caller>)

  datatype Step =
    | Arrive
    | Lock(c: nat)
    | Wake(c: nat)
    | CtxEnds(c: nat)
    | Settle(c: nat, verdict: Verdict)

  predicate IsClosed(g: Gate, ch: nat) {
    ch < |g.closed| && g.closed[ch]
  }

  predicate Enabled(s: System, step: Step) {
    match step
    case Arrive => true
    case Lock(c) => c < |s.callers| && s.callers[c].Entering?
    case Wake(c) => c < |s.callers| && s.callers[c].Waiting? && IsClosed(s.gate, s.callers[c].ch)
    case CtxEnds(c) => c < |s.callers| && s.callers[c].Waiting?
    case Settle(c, _) => c < |s.callers| && s.callers[c].Asking? && s.callers[c].ch < |s.gate.closed|
  }

  function Apply(s: System, step: Step): System
    requires Enabled(s, step)
  {
    match step
    case Arrive => s.(callers := s.callers + [Entering])
    case Lock(c) =>
      var (gate, d) := Looked(s.gate);
      System(gate, s.callers[c := match d case Told(err) => Returned(Some(err)) case Wait(ch) => Waiting(ch) case Ask(ch) => Asking(ch)])
    case Wake(c) => s.(callers := s.callers[c := Entering])
    case CtxEnds(c) => s.(callers := s.callers[c := Returned(None)])
    case Settle(c, verdict) =>
      var gate := Settled(s.gate, s.callers[c].ch, verdict);
      System(gate, s.callers[c := Returned(if verdict.Failed? then None else Some(gate.err))])
  }

  function Init(): System {
    System(Gate(None, false, None, []), [])
  }

  predicate IsRun(s: System, steps: seq<Step>)
    decreases |steps|
  {
    steps == [] || (Enabled(s, steps[0]) && IsRun(Apply(s, steps[0]), steps[1..]))
  }

  function After(s: System, steps: seq<Step>): System
    requires IsRun(s, steps)
    decreases |steps|
  {
    if steps == [] then s else After(Apply(s, steps[0]), steps[1..])
  }

  // ---- The invariant ----

  predicate IsAsker(s: System, c: nat) {
    c < |s.callers| && s.callers[c].Asking?
  }

  /** Somebody asks exactly while the gate says so, on the channel it says, which is open. */
  ghost predicate OneAsker(s: System) {
    && (forall c: nat :: IsAsker(s, c) ==> s.gate.asking == Some(s.callers[c].ch))
    && (forall c: nat, d: nat :: IsAsker(s, c) && IsAsker(s, d) ==> c == d)
    && (s.gate.asking.Some? ==> (exists c: nat :: IsAsker(s, c)) && s.gate.asking.value < |s.gate.closed| && !s.gate.closed[s.gate.asking.value])
  }

  /** A waiter waits for the one who asks now, or has been woken. */
  predicate NoneForgotten(s: System) {
    forall c :: 0 <= c < |s.callers| && s.callers[c].Waiting? ==>
      s.gate.asking == Some(s.callers[c].ch) || IsClosed(s.gate, s.callers[c].ch)
  }

  predicate OneAnswer(s: System) {
    && (s.gate.answered ==> s.gate.asking.None?)
    && (!s.gate.answered ==> s.gate.err.None?)
    && forall c :: 0 <= c < |s.callers| && s.callers[c].Returned? && s.callers[c].told.Some? ==>
         s.gate.answered && s.callers[c].told.value == s.gate.err
  }

  ghost predicate Inv(s: System) {
    OneAsker(s) && NoneForgotten(s) && OneAnswer(s)
  }

  lemma StepKeeps(s: System, step: Step)
    requires Inv(s) && Enabled(s, step)
    ensures Inv(Apply(s, step))
  {
    var t := Apply(s, step);
    if step.Settle? {
      assert IsAsker(s, step.c);
      forall c: nat | IsAsker(t, c) ensures false {
        assert IsAsker(s, c);
      }
    } else if step.Lock? && Looked(s.gate).1.Ask? {
      assert IsAsker(t, step.c);
      forall c: nat | IsAsker(t, c) ensures c == step.c {
        assert c != step.c ==> IsAsker(s, c);
      }
    } else {
      forall c: nat ensures IsAsker(t, c) <==> IsAsker(s, c) {
      }
      if s.gate.asking.Some? {
        var a: nat :| IsAsker(s, a);
        assert IsAsker(t, a);
      }
    }
  }

  lemma {:induction false} RunKeeps(s: System, steps: seq<Step>)
    requires Inv(s) && IsRun(s, steps)
    ensures Inv(After(s, steps))
    decreases |steps|
  {
    if steps != [] {
      StepKeeps(s, steps[0]);
      RunKeeps(Apply(s, steps[0]), steps[1..]);
    }
  }

  // ---- What it means for the callers ----

  /** At most one caller asks at a time, and whoever waits has an asker to wait for or is free to go on. */
  lemma OneAsksTheOthersWait(steps: seq<Step>, c: nat, d: nat)
    requires IsRun(Init(), steps)
    ensures var s := After(Init(), steps);
            && (IsAsker(s, c) && IsAsker(s, d) ==> c == d)
            && (c < |s.callers| && s.callers[c].Waiting? ==>
                  Enabled(s, Wake(c)) || exists a: nat :: IsAsker(s, a) && s.callers[a].ch == s.callers[c].ch)
  {
    RunKeeps(Init(), steps);
  }

  /** However asking ends, every caller that waited can go on. */
  lemma AllWaitersWake(steps: seq<Step>, a: nat, verdict: Verdict, c: nat)
    requires IsRun(Init(), steps) && Enabled(After(Init(), steps), Settle(a, verdict))
    requires c < |After(Init(), steps).callers| && After(Init(), steps).callers[c].Waiting?
    ensures Enabled(Apply(After(Init(), steps), Settle(a, verdict)), Wake(c))
  {
    RunKeeps(Init(), steps);
    assert IsAsker(After(Init(), steps), a);
  }

  predicate IsTold(s: System, c: nat, err: Option<string>) {
    c < |s.callers| && s.callers[c] == Returned(Some(err))
  }

  /** Once the human has answered nobody asks again, and the answer stays. */
  lemma {:induction false} AnsweredForGood(s: System, steps: seq<Step>)
    requires Inv(s) && IsRun(s, steps) && s.gate.answered
    ensures After(s, steps).gate == s.gate
    decreases |steps|
  {
    if steps != [] {
      assert steps[0].Settle? ==> !IsAsker(s, steps[0].c);
      StepKeeps(s, steps[0]);
      AnsweredForGood(Apply(s, steps[0]), steps[1..]);
    }
  }

  /** Every caller told an answer, before or after any further steps, was told the same one. */
  lemma SameAnswerForAll(steps: seq<Step>, more: seq<Step>, c: nat, d: nat, x: Option<string>, y: Option<string>)
    requires IsRun(Init(), steps) && IsRun(After(Init(), steps), more)
    requires IsTold(After(Init(), steps), c, x) && IsTold(After(After(Init(), steps), more), d, y)
    ensures x == y && |After(After(Init(), steps), more).gate.closed| == |After(Init(), steps).gate.closed|
  {
    RunKeeps(Init(), steps);
    RunKeeps(After(Init(), steps), more);
    AnsweredForGood(After(Init(), steps), more);
  }

  /** What callers are told is the human's verdict: nothing for an approval, and a refusal with its status. */
  predicate IsVerdict(told: Option<string>, v: Verdict) {
    match v
    case Approved => told.None?
    case Refused(status) => told == Some(status)
    case Failed => false
  }

  lemma {:induction false} AnswerIsVerdict(s: System, steps: seq<Step>) returns (k: nat)
    requires Inv(s) && IsRun(s, steps) && !s.gate.answered && After(s, steps).gate.answered
    ensures k < |steps| && steps[k].Settle? && IsVerdict(After(s, steps).gate.err, steps[k].verdict)
    decreases |steps|
  {
    StepKeeps(s, steps[0]);
    if Apply(s, steps[0]).gate.answered {
      k := 0;
      AnsweredForGood(Apply(s, steps[0]), steps[1..]);
    } else {
      k := AnswerIsVerdict(Apply(s, steps[0]), steps[1..]);
      k := k + 1;
    }
  }

  /** Whoever is told an answer is told the verdict with which some asker came back from the human. */
  lemma ToldTheVerdict(steps: seq<Step>, c: nat, told: Option<string>) returns (k: nat)
    requires IsRun(Init(), steps) && IsTold(After(Init(), steps), c, told)
    ensures k < |steps| && steps[k].Settle? && IsVerdict(told, steps[k].verdict)
  {
    RunKeeps(Init(), steps);
    k := AnswerIsVerdict(Init(), steps);
  }

  /** Only a caller's own error keeps an answer from it: who looks once there is one, and who got it, is told. */
  lemma AnsweredIsTold(steps: seq<Step>, step: Step)
    requires IsRun(Init(), steps) && Enabled(After(Init(), steps), step) && (step.Lock? || step.Settle?)
    requires step.Settle? ==> !step.verdict.Failed?
    ensures var t := Apply(After(Init(), steps), step);
            t.gate.answered ==> exists told: Option<string> :: IsTold(t, step.c, told)
    ensures step.Settle? ==> Apply(After(Init(), steps), step).gate.answered
  {
    RunKeeps(Init(), steps);
    var t := Apply(After(Init(), steps), step);
    assert t.gate.answered ==> IsTold(t, step.c, t.gate.err);
  }

  /** The times that asking ended with the asker's own error. */
  function FailedAsks(steps: seq<Step>): nat {
    if steps == [] then 0 else FailedAsks(steps[1..]) + if steps[0].Settle? && steps[0].verdict.Failed? then 1 else 0
  }

  /** A human is asked once, and once more for each asker that gave up. */
  lemma {:induction false} AsksCounted(s: System, steps: seq<Step>)
    requires Inv(s) && IsRun(s, steps)
    ensures |After(s, steps).gate.closed| == |s.gate.closed| + FailedAsks(steps) + Open(After(s, steps).gate) - Open(s.gate)
    decreases |steps|
  {
    if steps != [] {
      if steps[0].Settle? {
        assert IsAsker(s, steps[0].c);
      }
      StepKeeps(s, steps[0]);
      AsksCounted(Apply(s, steps[0]), steps[1..]);
    }
  }

  /** Whether the latest question was answered or is still being asked. */
  function Open(g: Gate): nat {
    if g.answered || g.asking.Some? then 1 else 0
  }

  // ---- Nobody waits for ever ----

  predicate Inside(c: Caller) {
    !c.Returned?
  }

  function Weight(g: Gate, c: Caller): nat {
    if c.Entering? then 1 else if c.Waiting? && IsClosed(g, c.ch) then 2 else 0
  }

  function CountInside(callers: seq<Caller>): nat {
    if callers == [] then 0 else CountInside(callers[1..]) + if Inside(callers[0]) then 1 else 0
  }

  function Work(g: Gate, callers: seq<Caller>): nat {
    if callers == [] then 0 else Weight(g, callers[0]) + Work(g, callers[1..])
  }

  lemma {:induction false} CountUpdate(callers: seq<Caller>, c: nat, x: Caller)
    requires c < |callers|
    ensures CountInside(callers[c := x]) == CountInside(callers) + (if Inside(x) then 1 else 0) - (if Inside(callers[c]) then 1 else 0)
  {
    if c == 0 {
      assert callers[c := x][1..] == callers[1..];
    } else {
      assert callers[c := x][1..] == callers[1..][c - 1 := x];
      CountUpdate(callers[1..], c - 1, x);
    }
  }

  lemma {:induction false} WorkUpdate(g: Gate, h: Gate, callers: seq<Caller>, c: nat, x: Caller)
    requires c < |callers| && forall d :: 0 <= d < |callers| && d != c ==> Weight(h, callers[d]) == Weight(g, callers[d])
    ensures Work(h, callers[c := x]) == Work(g, callers) + Weight(h, x) - Weight(g, callers[c])
  {
    if c == 0 {
      assert callers[c := x][1..] == callers[1..];
      SameWork(g, h, callers[1..]);
    } else {
      assert callers[c := x][1..] == callers[1..][c - 1 := x];
      assert forall d :: 0 <= d < |callers| - 1 ==> callers[1..][d] == callers[d + 1];
      WorkUpdate(g, h, callers[1..], c - 1, x);
    }
  }

  lemma {:induction false} SameWork(g: Gate, h: Gate, callers: seq<Caller>)
    requires forall d :: 0 <= d < |callers| ==> Weight(h, callers[d]) == Weight(g, callers[d])
    ensures Work(h, callers) == Work(g, callers)
  {
    if callers != [] {
      SameWork(g, h, callers[1..]);
    }
  }

  /**
   * Every step but an arrival brings the callers nearer to their end: one returns, or
   * none does and the callers that are free to go on have less to do.
   */
  lemma StepProgresses(s: System, step: Step)
    requires Inv(s) && Enabled(s, step) && !step.Arrive?
    ensures var t := Apply(s, step);
            || CountInside(t.callers) < CountInside(s.callers)
            || (CountInside(t.callers) == CountInside(s.callers) && Work(t.gate, t.callers) < Work(s.gate, s.callers))
  {
    var t := Apply(s, step);
    CountUpdate(s.callers, step.c, t.callers[step.c]);
    if Inside(t.callers[step.c]) {
      WorkUpdate(s.gate, t.gate, s.callers, step.c, t.callers[step.c]);
    }
  }

  /** While a caller is inside, some caller can go on without its context ending. */
  lemma NotStuck(s: System, c: nat) returns (step: Step)
    requires Inv(s) && c < |s.callers| && Inside(s.callers[c])
    ensures Enabled(s, step) && !step.Arrive? && !step.CtxEnds?
  {
    match s.callers[c]
    case Entering => step := Lock(c);
    case Asking(ch) =>
      assert IsAsker(s, c);
      step := Settle(c, Approved);
    case Waiting(ch) =>
      if IsClosed(s.gate, ch) {
        step := Wake(c);
      } else {
        var a: nat :| IsAsker(s, a);
        step := Settle(a, Approved);
      }
  }
}
