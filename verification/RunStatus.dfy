/**
 * A run's stored status against the run_state_changed events that record it, under any
 * interleaving of the calls of one process that launch, execute, resume and cancel it.
 */
module RunStatus {
  import opened Wrappers
  import opened Core

  // ---- Replay ----

  datatype ReplayError = NotFound | NotMonotonic | Mismatch

  datatype Replayed = Accepted(status: Core.RunStatus) | Rejected(error: ReplayError)

  /** The statuses the events record, in order. */
  function StatusesOf(events: seq<Event>): seq<Core.RunStatus> {
    if events == [] then []
    else
      var last := events[|events| - 1];
      StatusesOf(events[..|events| - 1])
      + if last.payload.RunStateChanged? && last.payload.status.Some? then [last.payload.status.value] else []
  }

  function LastOr(statuses: seq<Core.RunStatus>, default: Core.RunStatus): Core.RunStatus {
    if statuses == [] then default else statuses[|statuses| - 1]
  }

  /** Sequence numbers are positive and strictly increase. */
  predicate Monotonic(events: seq<Event>) {
    && (forall k :: 0 <= k < |events| ==> events[k].sequence > 0)
    && forall j, k :: 0 <= j < k < |events| ==> events[j].sequence < events[k].sequence
  }

  /** The events are a run that ends in this status. */
  predicate ReplayAccepts(events: seq<Event>, status: Core.RunStatus) {
    events != [] && Monotonic(events) && status == LastOr(StatusesOf(events), Queued)
  }

  predicate RecordsStatus(ev: Event) {
    ev.payload.RunStateChanged? && ev.payload.status.Some?
  }

  /** The k-th event records this status, and no later one records any. */
  predicate RecordedLast(events: seq<Event>, k: nat, status: Core.RunStatus) {
    && k < |events| && RecordsStatus(events[k]) && events[k].payload.status.value == status
    && forall j :: k < j < |events| ==> !RecordsStatus(events[j])
  }

  /** The status the last event that records one records; queued where none does. */
  predicate EndsIn(events: seq<Event>, status: Core.RunStatus) {
    || (exists k :: 0 <= k < |events| && RecordedLast(events, k, status))
    || (status.Queued? && forall j :: 0 <= j < |events| ==> !RecordsStatus(events[j]))
  }

  lemma {:induction false} LastRecordedStatus(events: seq<Event>)
    ensures EndsIn(events, LastOr(StatusesOf(events), Queued))
    ensures StatusesOf(events) == [] <==> forall j :: 0 <= j < |events| ==> !RecordsStatus(events[j])
  {
    if events != [] {
      var n := |events| - 1;
      LastRecordedStatus(events[..n]);
      var status := LastOr(StatusesOf(events), Queued);
      if RecordsStatus(events[n]) {
        assert RecordedLast(events, n, status);
      } else if k :| 0 <= k < n && RecordedLast(events[..n], k, status) {
        assert RecordedLast(events, k, status);
      }
    }
  }

  method Replay(events: seq<Event>, stored: Option<Core.RunStatus>) returns (r: Replayed)
    ensures r.Accepted? <==> stored.Some? && ReplayAccepts(events, stored.value)
    ensures r.Accepted? ==> stored == Some(r.status) && EndsIn(events, r.status)
    ensures r == Rejected(NotFound) <==> events == [] || stored.None?
    ensures r == Rejected(NotMonotonic) <==> stored.Some? && !Monotonic(events)
  {
    if |events| == 0 || stored.None? {
      return Rejected(NotFound);
    }
    var status := Queued;
    var lastSeq := 0;
    for k := 0 to |events|
      invariant lastSeq == if k == 0 then 0 else events[k - 1].sequence
      invariant forall j :: 0 <= j < k ==> 0 < events[j].sequence <= lastSeq
      invariant forall i, j :: 0 <= i < j < k ==> events[i].sequence < events[j].sequence
      invariant status == LastOr(StatusesOf(events[..k]), Queued)
    {
      var ev := events[k];
      if ev.sequence <= lastSeq {
        assert k > 0 ==> events[k - 1].sequence >= events[k].sequence;
        return Rejected(NotMonotonic);
      }
      lastSeq := ev.sequence;
      assert events[..k + 1][..k] == events[..k];
      if ev.payload.RunStateChanged? && ev.payload.status.Some? {
        status := ev.payload.status.value;
      }
    }
    assert events[..|events|] == events;
    LastRecordedStatus(events);
    if stored != Some(status) {
      return Rejected(Mismatch);
    }
    return Accepted(status);
  }

  // ---- The calls that change a status ----

  /**
   * Where the call that has claimed the run is. Emitting the event of a status it has
   * written is a step of its own: Reopened and Ending are about to emit, and an executing
   * run may have several approvals whose statuses are written and not yet emitted.
   */
  datatype Holder =
    | Free
    | Launching
    | Resuming
    | ToResume(seen: Core.RunStatus)
    | CancelingPaused
    | ToCancel
    | Reopened
    | ToExecute
    | Executing(unsent: seq<Core.RunStatus>)
    | Ending(status: Core.RunStatus)

  /**
   * The run's row, the statuses its events record, and the process's claim on it; launched
   * says that its one launch has been tried, and requeued that this launch has emitted
   * queued since the status was written.
   */
  datatype Run = Run(status: Core.RunStatus, log: seq<Core.RunStatus>, holder: Holder, launched: bool, requeued: bool)

  datatype Step =
    | Launch
    | LaunchFails
    | Resume
    | CancelPaused
    | ReadRun
    | GiveUp
    | FinishCanceled
    | Reopen
    | GoOn
    | Emit
    | Begin
    | Transition(to: Core.RunStatus)
    | EmitUnsent(k: nat)
    | Finish(status: Core.RunStatus)
    | Stop

  predicate Closed(s: Core.RunStatus) {
    s.Succeeded? || s.Canceled?
  }

  predicate Enabled(r: Run, step: Step) {
    match step
    case Launch => r.holder.Free? && !r.launched
    case LaunchFails => !r.launched
    case Resume => r.holder.Free?
    case CancelPaused => r.holder.Free?
    case ReadRun => r.holder.Resuming? || r.holder.CancelingPaused?
    case GiveUp => r.holder.Resuming? || r.holder.ToResume? || r.holder.CancelingPaused? || r.holder.ToCancel?
    case FinishCanceled => r.holder.ToResume? || r.holder.ToCancel?
    case Reopen => r.holder.ToResume? && (Terminal(r.holder.seen) || r.holder.seen.Paused?)
    case GoOn => r.holder.ToResume? && !Terminal(r.holder.seen) && !r.holder.seen.Paused?
    case Emit => r.holder.Launching? || r.holder.Reopened? || r.holder.Ending?
    case Begin => r.holder.ToExecute?
    case Transition(to) => r.holder.Executing? && (to.AwaitingApproval? || to.Running?)
    case EmitUnsent(k) => r.holder.Executing? && k < |r.holder.unsent|
    case Finish(status) =>
      || (r.holder.ToExecute? && status.Canceled?)
      || (r.holder == Executing([]) && (Terminal(status) || status.Paused?))
    case Stop => r.holder.ToExecute? || r.holder == Executing([])
  }

  function Apply(r: Run, step: Step): Run
    requires Enabled(r, step)
  {
    match step
    case Launch => r.(holder := Launching, launched := true)
    case LaunchFails => r.(launched := true)
    case Resume => r.(holder := Resuming)
    case CancelPaused => r.(holder := CancelingPaused)
    case ReadRun =>
      if r.holder.Resuming? then r.(holder := if Closed(r.status) then Free else ToResume(r.status))
      else r.(holder := if r.status.Paused? then ToCancel else Free)
    case GiveUp => r.(holder := Free)
    case FinishCanceled => r.(status := Canceled, holder := Ending(Canceled), requeued := false)
    case Reopen => r.(status := Queued, holder := Reopened, requeued := false)
    case GoOn => r.(holder := ToExecute)
    case Emit =>
      if r.holder.Ending? then r.(log := r.log + [r.holder.status], holder := Free)
      else r.(log := r.log + [Queued], holder := ToExecute, requeued := r.holder.Launching?)
    case Begin => r.(status := Running, holder := Executing([Running]), requeued := false)
    case Transition(to) => r.(status := to, holder := Executing(r.holder.unsent + [to]), requeued := false)
    case EmitUnsent(k) =>
      r.(log := r.log + [r.holder.unsent[k]], holder := Executing(r.holder.unsent[..k] + r.holder.unsent[k + 1..]))
    case Finish(status) => r.(status := status, holder := Ending(status), requeued := false)
    case Stop => r.(holder := Free)
  }

  /** As CreateRun leaves it. */
  function Created(): Run {
    Run(Queued, [], Free, false, false)
  }

  predicate IsRun(r: Run, steps: seq<Step>)
    decreases |steps|
  {
    steps == [] || (Enabled(r, steps[0]) && IsRun(Apply(r, steps[0]), steps[1..]))
  }

  function After(r: Run, steps: seq<Step>): Run
    requires IsRun(r, steps)
    decreases |steps|
  {
    if steps == [] then r else After(Apply(r, steps[0]), steps[1..])
  }

  // ---- Replay agrees with the stored status ----

  predicate LastIs(log: seq<Core.RunStatus>, status: Core.RunStatus) {
    log != [] && log[|log| - 1] == status
  }

  predicate LastOpen(log: seq<Core.RunStatus>) {
    log != [] ==> !Terminal(log[|log| - 1])
  }

  predicate AllOpen(statuses: seq<Core.RunStatus>) {
    forall k :: 0 <= k < |statuses| ==> !Terminal(statuses[k])
  }

  predicate HolderInv(r: Run) {
    match r.holder
    case ToResume(seen) => seen == r.status && !Closed(seen)
    case ToCancel => r.status.Paused?
    case Reopened => r.status.Queued?
    case ToExecute => LastOpen(r.log) && (Terminal(r.status) ==> r.requeued)
    case Executing(unsent) => !Terminal(r.status) && AllOpen(unsent) && (unsent == [] ==> LastOpen(r.log))
    case Ending(status) => status == r.status && !r.requeued && (Terminal(status) ==> !LastIs(r.log, status))
    case _ => true
  }

  /** What the last event says of a status that no call is in the middle of changing. */
  predicate LogInv(r: Run) {
    if Terminal(r.status) then r.holder.Ending? || LastIs(r.log, if r.requeued then Queued else r.status)
    else r.holder.Reopened? || r.holder.Executing? || r.holder.Ending? || LastOpen(r.log)
  }

  predicate Inv(r: Run) {
    HolderInv(r) && LogInv(r)
  }

  lemma {:induction false} RunKeeps(r: Run, steps: seq<Step>)
    requires Inv(r) && IsRun(r, steps)
    ensures Inv(After(r, steps))
    decreases |steps|
  {
    if steps != [] {
      RunKeeps(Apply(r, steps[0]), steps[1..]);
    }
  }

  /**
   * Whenever a run is in a terminal status, Replay accepts its events exactly if the call
   * that wrote the status has emitted its event, and no launch has emitted queued since.
   */
  lemma TerminalStatusIsReplayed(steps: seq<Step>, events: seq<Event>)
    requires IsRun(Created(), steps)
    requires Monotonic(events) && StatusesOf(events) == After(Created(), steps).log
    requires Terminal(After(Created(), steps).status)
    ensures var r := After(Created(), steps);
            ReplayAccepts(events, r.status) <==> !r.holder.Ending? && !r.requeued
  {
    RunKeeps(Created(), steps);
  }

  // ---- What is written, and what is emitted of it ----

  /** The status a step writes to the run's row. */
  function WrittenBy(step: Step): seq<Core.RunStatus> {
    match step
    case FinishCanceled => [Canceled]
    case Reopen => [Queued]
    case Begin => [Running]
    case Transition(to) => [to]
    case Finish(status) => [status]
    case _ => []
  }

  function Written(steps: seq<Step>): seq<Core.RunStatus> {
    if steps == [] then [] else WrittenBy(steps[0]) + Written(steps[1..])
  }

  lemma LastOfConcat(a: seq<Core.RunStatus>, b: seq<Core.RunStatus>, default: Core.RunStatus)
    ensures LastOr(a + b, default) == LastOr(b, LastOr(a, default))
  {
  }

  /** The stored status is the one written last. */
  lemma {:induction false} StatusIsLastWritten(r: Run, steps: seq<Step>)
    requires IsRun(r, steps)
    ensures After(r, steps).status == LastOr(Written(steps), r.status)
    decreases |steps|
  {
    if steps != [] {
      StatusIsLastWritten(Apply(r, steps[0]), steps[1..]);
      LastOfConcat(WrittenBy(steps[0]), Written(steps[1..]), r.status);
    }
  }

  function One(x: Core.RunStatus, y: Core.RunStatus): nat {
    if x == y then 1 else 0
  }

  /** How often x stands among the first n statuses. */
  function TimesIn(s: seq<Core.RunStatus>, n: nat, x: Core.RunStatus): nat
    requires n <= |s|
  {
    if n == 0 then 0 else TimesIn(s, n - 1, x) + One(x, s[n - 1])
  }

  function Times(s: seq<Core.RunStatus>, x: Core.RunStatus): nat {
    TimesIn(s, |s|, x)
  }

  /** How often the event of a status is still to be emitted. */
  function Unsent(h: Holder, x: Core.RunStatus): nat {
    match h
    case Launching => One(x, Queued)
    case Reopened => One(x, Queued)
    case Executing(unsent) => Times(unsent, x)
    case Ending(status) => One(x, status)
    case _ => 0
  }

  /** How often a run's events record a status, or are about to. */
  function Count(r: Run, x: Core.RunStatus): nat {
    Times(r.log, x) + Unsent(r.holder, x)
  }

  /** Whether a step writes this status, or launches the run, which says queued. */
  function OwedBy(step: Step, x: Core.RunStatus): nat {
    match step
    case FinishCanceled => One(x, Canceled)
    case Reopen => One(x, Queued)
    case Begin => One(x, Running)
    case Transition(to) => One(x, to)
    case Finish(status) => One(x, status)
    case Launch => One(x, Queued)
    case _ => 0
  }

  function Owed(steps: seq<Step>, x: Core.RunStatus): nat {
    if steps == [] then 0 else OwedBy(steps[0], x) + Owed(steps[1..], x)
  }

  lemma {:induction false} TimesInPrefix(s: seq<Core.RunStatus>, t: seq<Core.RunStatus>, n: nat, x: Core.RunStatus)
    requires n <= |s| && n <= |t| && forall k :: 0 <= k < n ==> s[k] == t[k]
    ensures TimesIn(s, n, x) == TimesIn(t, n, x)
  {
    if n > 0 {
      TimesInPrefix(s, t, n - 1, x);
    }
  }

  lemma Pushed(s: seq<Core.RunStatus>, y: Core.RunStatus, x: Core.RunStatus)
    ensures Times(s + [y], x) == Times(s, x) + One(x, y)
  {
    TimesInPrefix(s + [y], s, |s|, x);
  }

  /** With element k taken out, the statuses up to the n-th of the longer list are one fewer. */
  lemma {:induction false} TakenOutIn(s: seq<Core.RunStatus>, t: seq<Core.RunStatus>, k: nat, n: nat, x: Core.RunStatus)
    requires k < n <= |s| && |t| == |s| - 1
    requires (forall j :: 0 <= j < k ==> t[j] == s[j]) && (forall j :: k <= j < |t| ==> t[j] == s[j + 1])
    ensures TimesIn(s, n, x) == TimesIn(t, n - 1, x) + One(x, s[k])
  {
    if n == k + 1 {
      TimesInPrefix(s, t, k, x);
    } else {
      TakenOutIn(s, t, k, n - 1, x);
    }
  }

  lemma TakenOut(s: seq<Core.RunStatus>, k: nat, x: Core.RunStatus)
    requires k < |s|
    ensures Times(s, x) == Times(s[..k] + s[k + 1..], x) + One(x, s[k])
  {
    TakenOutIn(s, s[..k] + s[k + 1..], k, |s|, x);
  }

  /** The step leaves as many more to emit, or emitted, as it owes. */
  predicate Accounts(r: Run, step: Step, x: Core.RunStatus)
    requires Enabled(r, step)
  {
    Count(Apply(r, step), x) == Count(r, x) + OwedBy(step, x)
  }

  lemma EmitAccounts(r: Run, x: Core.RunStatus)
    requires Enabled(r, Emit)
    ensures Accounts(r, Emit, x)
  {
    var status := if r.holder.Ending? then r.holder.status else Queued;
    Pushed(r.log, status, x);
    assert Apply(r, Emit).log == r.log + [status] && Unsent(r.holder, x) == One(x, status);
    assert Unsent(Apply(r, Emit).holder, x) == 0;
  }

  lemma EmitUnsentAccounts(r: Run, k: nat, x: Core.RunStatus)
    requires Enabled(r, EmitUnsent(k))
    ensures Accounts(r, EmitUnsent(k), x)
  {
    var unsent := r.holder.unsent;
    Pushed(r.log, unsent[k], x);
    TakenOut(unsent, k, x);
    assert Apply(r, EmitUnsent(k)).log == r.log + [unsent[k]];
    assert Apply(r, EmitUnsent(k)).holder == Executing(unsent[..k] + unsent[k + 1..]);
  }

  lemma TransitionAccounts(r: Run, to: Core.RunStatus, x: Core.RunStatus)
    requires Enabled(r, Transition(to))
    ensures Accounts(r, Transition(to), x)
  {
    var unsent := r.holder.unsent;
    Pushed(unsent, to, x);
    assert Apply(r, Transition(to)).log == r.log && Apply(r, Transition(to)).holder == Executing(unsent + [to]);
    assert Unsent(r.holder, x) == Times(unsent, x);
  }

  lemma BeginAccounts(r: Run, x: Core.RunStatus)
    requires Enabled(r, Begin)
    ensures Accounts(r, Begin, x)
  {
    Pushed([], Running, x);
    assert [] + [Running] == [Running];
  }

  lemma StopAccounts(r: Run, x: Core.RunStatus)
    requires Enabled(r, Stop)
    ensures Accounts(r, Stop, x)
  {
    assert Unsent(r.holder, x) == 0;
  }

  lemma FinishAccounts(r: Run, status: Core.RunStatus, x: Core.RunStatus)
    requires Enabled(r, Finish(status))
    ensures Accounts(r, Finish(status), x)
  {
    assert Unsent(r.holder, x) == 0;
  }

  /** Steps before an execution: nothing is to be emitted before them. */
  lemma ClaimAccounts(r: Run, step: Step, x: Core.RunStatus)
    requires Enabled(r, step)
    requires !step.Emit? && !step.EmitUnsent? && !step.Transition? && !step.Begin? && !step.Stop? && !step.Finish? && !step.LaunchFails?
    ensures Accounts(r, step, x)
  {
    assert Unsent(r.holder, x) == 0;
    assert Unsent(Apply(r, step).holder, x) == OwedBy(step, x);
  }

  lemma StepAccounts(r: Run, step: Step, x: Core.RunStatus)
    requires Enabled(r, step)
    ensures Accounts(r, step, x)
  {
    match step
    case Emit => EmitAccounts(r, x);
    case EmitUnsent(k) => EmitUnsentAccounts(r, k, x);
    case Transition(to) => TransitionAccounts(r, to, x);
    case Begin => BeginAccounts(r, x);
    case Stop => StopAccounts(r, x);
    case Finish(status) => FinishAccounts(r, status, x);
    case LaunchFails =>
    case _ => ClaimAccounts(r, step, x);
  }

  /** Every status written, and queued for each launch, is emitted once or about to be. */
  lemma {:induction false} StatusesAreEmittedOnce(r: Run, steps: seq<Step>, x: Core.RunStatus)
    requires IsRun(r, steps)
    ensures Count(After(r, steps), x) == Count(r, x) + Owed(steps, x)
    decreases |steps|
  {
    if steps != [] {
      StepAccounts(r, steps[0], x);
      StatusesAreEmittedOnce(Apply(r, steps[0]), steps[1..], x);
    }
  }

  // ---- A launch that comes late ----

  /** A launch of the finished run is still to come, or has begun. */
  predicate LateLaunch(r: Run) {
    !r.launched || r.holder.Launching? || r.holder.ToExecute?
  }

  lemma {:induction false} NoLateLaunchKeeps(r: Run, steps: seq<Step>)
    requires Inv(r) && Closed(r.status) && !LateLaunch(r) && IsRun(r, steps)
    ensures After(r, steps).status == r.status
    ensures !r.holder.Ending? ==> After(r, steps).log == r.log
    decreases |steps|
  {
    if steps != [] {
      NoLateLaunchKeeps(Apply(r, steps[0]), steps[1..]);
    }
  }

  /** The call that created the run launched it, or failed to, before any other call claimed it. */
  predicate LaunchedFirst(steps: seq<Step>) {
    steps != [] && (steps[0].Launch? || steps[0].LaunchFails?)
  }

  lemma {:induction false} FirstLaunchIsNotLate(r: Run, steps: seq<Step>)
    requires Inv(r) && r.launched && (Terminal(r.status) ==> !LateLaunch(r)) && IsRun(r, steps)
    ensures After(r, steps).launched && (Terminal(After(r, steps).status) ==> !LateLaunch(After(r, steps)))
    decreases |steps|
  {
    if steps != [] {
      FirstLaunchIsNotLate(Apply(r, steps[0]), steps[1..]);
    }
  }

  /** No call leaves succeeded or canceled when the run was launched first. */
  lemma ClosedForGood(steps: seq<Step>, more: seq<Step>)
    requires LaunchedFirst(steps) && IsRun(Created(), steps) && IsRun(After(Created(), steps), more)
    requires Closed(After(Created(), steps).status)
    ensures After(After(Created(), steps), more).status == After(Created(), steps).status
  {
    RunKeeps(Created(), steps);
    FirstLaunchIsNotLate(Apply(Created(), steps[0]), steps[1..]);
    NoLateLaunchKeeps(After(Created(), steps), more);
  }

  /**
   * A succeeded or canceled run that its late launch requeued, and then left without
   * executing it, is rejected by Replay whatever calls follow.
   */
  lemma RejectedForGood(steps: seq<Step>, more: seq<Step>, events: seq<Event>)
    requires IsRun(Created(), steps) && IsRun(After(Created(), steps), more)
    requires var r := After(Created(), steps); Closed(r.status) && r.requeued && !LateLaunch(r)
    requires StatusesOf(events) == After(After(Created(), steps), more).log
    ensures !ReplayAccepts(events, After(After(Created(), steps), more).status)
  {
    RunKeeps(Created(), steps);
    NoLateLaunchKeeps(After(Created(), steps), more);
  }

  lemma StepThen(r: Run, step: Step, rest: seq<Step>)
    requires Enabled(r, step) && IsRun(Apply(r, step), rest)
    ensures IsRun(r, [step] + rest) && After(r, [step] + rest) == After(Apply(r, step), rest)
  {
    assert ([step] + rest)[1..] == rest;
  }

  predicate Reaches(r: Run, steps: seq<Step>, end: Run) {
    IsRun(r, steps) && After(r, steps) == end
  }

  lemma StepReaches(r: Run, step: Step, rest: seq<Step>, end: Run) returns (steps: seq<Step>)
    requires Enabled(r, step) && Reaches(Apply(r, step), rest, end)
    ensures steps == [step] + rest && Reaches(r, steps, end)
  {
    StepThen(r, step, rest);
    steps := [step] + rest;
  }

  lemma LateLaunchOfSuccess() returns (steps: seq<Step>)
    ensures Reaches(Run(Succeeded, [Running, Succeeded], Free, false, false), steps,
                    Run(Succeeded, [Running, Succeeded, Queued], Free, true, true))
  {
    var log := [Running, Succeeded];
    var end := Run(Succeeded, log + [Queued], Free, true, true);
    steps := StepReaches(end.(holder := ToExecute), Stop, [], end);
    steps := StepReaches(Run(Succeeded, log, Launching, true, false), Emit, steps, end);
    steps := StepReaches(Run(Succeeded, log, Free, false, false), Launch, steps, end);
  }

  lemma ExecutionToSuccess(rest: seq<Step>, end: Run) returns (steps: seq<Step>)
    requires Reaches(Run(Succeeded, [Running, Succeeded], Free, false, false), rest, end)
    ensures Reaches(Run(Queued, [], ToExecute, false, false), steps, end)
  {
    assert [] + [Running] == [Running] && [Running] + [Succeeded] == [Running, Succeeded];
    steps := StepReaches(Run(Succeeded, [Running], Ending(Succeeded), false, false), Emit, rest, end);
    steps := StepReaches(Run(Running, [Running], Executing([]), false, false), Finish(Succeeded), steps, end);
    steps := StepReaches(Run(Running, [], Executing([Running]), false, false), EmitUnsent(0), steps, end);
    steps := StepReaches(Run(Queued, [], ToExecute, false, false), Begin, steps, end);
  }

  /**
   * Resume runs the stored run to its end before createRun launches it, and a shutdown then
   * ends the launch: a free, succeeded run whose last event says queued.
   */
  lemma LateLaunchUnrecordsSuccess() returns (steps: seq<Step>)
    ensures IsRun(Created(), steps)
    ensures After(Created(), steps) == Run(Succeeded, [Running, Succeeded, Queued], Free, true, true)
  {
    var end := Run(Succeeded, [Running, Succeeded, Queued], Free, true, true);
    steps := LateLaunchOfSuccess();
    steps := ExecutionToSuccess(steps, end);
    steps := StepReaches(Created().(holder := ToResume(Queued)), GoOn, steps, end);
    steps := StepReaches(Created().(holder := Resuming), ReadRun, steps, end);
    steps := StepReaches(Created(), Resume, steps, end);
  }

  ghost predicate CanBeLeft(r: Run) {
    exists steps: seq<Step> :: Leaves(r, steps)
  }

  predicate Leaves(r: Run, steps: seq<Step>) {
    IsRun(r, steps) && After(r, steps).status != r.status
  }

  /** The steps by which a late launch leaves the status. */
  lemma LateLaunchLeaves(r: Run) returns (steps: seq<Step>)
    requires Inv(r) && Closed(r.status) && LateLaunch(r)
    ensures Leaves(r, steps)
    decreases match r.holder case ToExecute => 0 case Launching => 1 case Free => 2 case _ => 3
  {
    var step :=
      match r.holder
      case Free => Launch
      case Launching => Emit
      case ToExecute => Begin
      case Ending(_) => Emit
      case _ => GiveUp;
    var rest: seq<Step> := [];
    if step.Begin? {
      assert IsRun(Apply(r, step), []);
    } else {
      rest := LateLaunchLeaves(Apply(r, step));
    }
    StepThen(r, step, rest);
    steps := [step] + rest;
  }

  /**
   * When another call may claim the run before the call that created it launches it, a
   * succeeded or canceled status can be left, exactly while that launch is still to come or
   * has begun.
   */
  lemma ClosedIsLeftOnlyByLateLaunch(steps: seq<Step>)
    requires IsRun(Created(), steps) && Closed(After(Created(), steps).status)
    ensures CanBeLeft(After(Created(), steps)) <==> LateLaunch(After(Created(), steps))
  {
    var r := After(Created(), steps);
    RunKeeps(Created(), steps);
    if LateLaunch(r) {
      var more := LateLaunchLeaves(r);
    } else {
      forall more: seq<Step> | IsRun(r, more) ensures After(r, more).status == r.status {
        NoLateLaunchKeeps(r, more);
      }
    }
  }
}
