/**
 * The sub-agent count of one run while any number of its tasks take outputs, retry and end
 * at once, and parallel stages count and reserve for their agents up front.
 */
module SubAgentLedger {
  import opened Collections
  import opened TaskReuse

  /**
   * Where a task is whose take found nothing. Asking has still to reserve. Holding,
   * BackingOff and Returning are accounted as having a reservation without a task record;
   * Returning is about to give it back, because there is no record or because the context
   * ended during the backoff.
   */
  datatype Task =
    | Asking
    | Holding
    | Running
    | Failed
    | BackingOff
    | Returning(done: bool)
    | Ended

  /** A take by an agent of the stage numbered so, or by any other task. */
  datatype Take = Take(stage: int, key: string)

  const NO_STAGE: int := -1

  /**
   * A parallel stage: the keys of its agents, the outputs it counted and how many takes had
   * been made until then, and how many of its agents it found to have no output. Once it has
   * reserved for these, `waiting` are the keys of its agents that have not taken, and
   * `missed` the takes of its agents that found nothing.
   */
  datatype Stage = Stage(
    keys: seq<string>, recorded: Outputs, from: nat, toRun: nat, reserved: bool, waiting: multiset<string>, missed: nat)

  /**
   * count is the run's usage, and records the task records created in this execution.
   * unpaid counts the misses of agents whose stage had no reservation left for them, and
   * floored the releases that found nothing counted.
   */
  datatype Ledger = Ledger(
    count: int, records: nat, unpaid: nat, floored: nat,
    outputs: Outputs, takes: seq<Take>, stages: seq<Stage>, tasks: seq<Task>)

  /** What a task whose take found nothing does next. Any limit may refuse it, not only that on sub-agents. */
  datatype Move = Reserve | Refused | Create | CreateFails | Answer | Fail | Retry | NoRetry | Timer | CtxEnds | Release

  datatype Step =
    | StageCounts(keys: seq<string>)
    | StageReserves(i: nat)
    | AgentTakes(i: nat, key: string)
    | AgentSkips(i: nat, key: string)
    | OtherTakes(key: string)
    | Goes(t: nat, move: Move)

  /** max is the limit on sub-agents, zero or less meaning unlimited. */
  predicate Fits(max: int, count: int, n: int) {
    max <= 0 || count + n <= max
  }

  predicate CanMove(max: int, count: int, task: Task, move: Move) {
    match move
    case Reserve => task.Asking? && Fits(max, count, 1)
    case Refused => task.Asking?
    case Create => task.Holding?
    case CreateFails => task.Holding?
    case Answer => task.Running?
    case Fail => task.Running?
    case Retry => task.Failed? && Fits(max, count, 1)
    case NoRetry => task.Failed?
    case Timer => task.BackingOff?
    case CtxEnds => task.BackingOff?
    case Release => task.Returning?
  }

  function TaskAfter(max: int, count: int, task: Task, move: Move): Task
    requires CanMove(max, count, task, move)
  {
    match move
    case Reserve => Holding
    case Refused => Ended
    case Create => Running
    case CreateFails => Returning(false)
    case Answer => Ended
    case Fail => Failed
    case Retry => BackingOff
    case NoRetry => Ended
    case Timer => Holding
    case CtxEnds => Returning(true)
    case Release => if task.done then Ended else Failed
  }

  /** Reserving counts one more; releasing counts one less, but never less than none. */
  function CountAfter(count: int, move: Move): int {
    match move
    case Reserve => count + 1
    case Retry => count + 1
    case Release => if count > 1 then count - 1 else 0
    case _ => count
  }

  predicate AgentWaits(s: Ledger, i: nat, key: string) {
    i < |s.stages| && key in s.stages[i].waiting
  }

  /** An agent skips its task when its stage is cancelled before it may run. */
  predicate Enabled(max: int, s: Ledger, step: Step) {
    match step
    case StageCounts(_) => true
    case StageReserves(i) => i < |s.stages| && !s.stages[i].reserved && Fits(max, s.count, s.stages[i].toRun)
    case AgentTakes(i, key) => AgentWaits(s, i, key)
    case AgentSkips(i, key) => AgentWaits(s, i, key)
    case OtherTakes(_) => true
    case Goes(t, move) => t < |s.tasks| && CanMove(max, s.count, s.tasks[t], move)
  }

  function Counted(s: Ledger, keys: seq<string>): Ledger {
    s.(stages := s.stages + [Stage(keys, s.outputs, |s.takes|, Misses(s.outputs, keys), false, multiset{}, 0)])
  }

  function Funded(s: Ledger, i: nat): Ledger
    requires i < |s.stages|
  {
    var stage := s.stages[i];
    s.(count := s.count + stage.toRun, stages := s.stages[i := stage.(reserved := true, waiting := multiset(stage.keys))])
  }

  /** One of the agents that the stage waits for comes, or will not come. */
  function Comes(s: Ledger, i: nat, key: string): Ledger
    requires i < |s.stages|
  {
    var stage := s.stages[i];
    s.(stages := s.stages[i := stage.(waiting := stage.waiting - multiset{key})])
  }

  function Took(s: Ledger, take: Take): Ledger {
    s.(outputs := Taken(s.outputs, take.key), takes := s.takes + [take])
  }

  /** An agent of the stage has missed: it goes on with what its stage reserved, or with nothing. */
  function Missed(s: Ledger, i: nat): Ledger
    requires i < |s.stages|
  {
    var stage := s.stages[i];
    s.(stages := s.stages[i := stage.(missed := stage.missed + 1)],
       unpaid := s.unpaid + (if stage.missed < stage.toRun then 0 else 1),
       tasks := s.tasks + [Holding])
  }

  function AgentTook(s: Ledger, i: nat, key: string): Ledger
    requires i < |s.stages|
  {
    var s' := Took(Comes(s, i, key), Take(i, key));
    if Left(s.outputs, key) == [] then Missed(s', i) else s'
  }

  /** Any other task has taken: a sequential stage's, or one that an agent delegated. */
  function OtherTook(s: Ledger, key: string): Ledger {
    var s' := Took(s, Take(NO_STAGE, key));
    if Left(s.outputs, key) == [] then s'.(tasks := s'.tasks + [Asking]) else s'
  }

  function Gone(max: int, s: Ledger, t: nat, move: Move): Ledger
    requires t < |s.tasks| && CanMove(max, s.count, s.tasks[t], move)
  {
    s.(count := CountAfter(s.count, move),
       records := s.records + (if move.Create? then 1 else 0),
       floored := s.floored + (if move.Release? && s.count <= 0 then 1 else 0),
       tasks := s.tasks[t := TaskAfter(max, s.count, s.tasks[t], move)])
  }

  function Apply(max: int, s: Ledger, step: Step): Ledger
    requires Enabled(max, s, step)
  {
    match step
    case StageCounts(keys) => Counted(s, keys)
    case StageReserves(i) => Funded(s, i)
    case AgentTakes(i, key) => AgentTook(s, i, key)
    case AgentSkips(i, key) => Comes(s, i, key)
    case OtherTakes(key) => OtherTook(s, key)
    case Goes(t, move) => Gone(max, s, t, move)
  }

  /** A run with `before` sub-agents counted by earlier executions, and the outputs these recorded. */
  function Init(before: nat, recorded: Outputs): Ledger {
    Ledger(before, 0, 0, 0, recorded, [], [], [])
  }

  predicate IsRun(max: int, s: Ledger, steps: seq<Step>)
    decreases |steps|
  {
    steps == [] || (Enabled(max, s, steps[0]) && IsRun(max, Apply(max, s, steps[0]), steps[1..]))
  }

  function After(max: int, s: Ledger, steps: seq<Step>): Ledger
    requires IsRun(max, s, steps)
    decreases |steps|
  {
    if steps == [] then s else After(max, Apply(max, s, steps[0]), steps[1..])
  }

  // ---- What the count is made of ----

  predicate HasReservation(t: Task) {
    t.Holding? || t.BackingOff? || t.Returning?
  }

  function Held(tasks: seq<Task>): nat {
    if tasks == [] then 0 else Held(tasks[..|tasks| - 1]) + if HasReservation(tasks[|tasks| - 1]) then 1 else 0
  }

  /** What the stage has reserved and its agents have not needed, or not yet. */
  function UnclaimedOf(stage: Stage): nat {
    if stage.reserved && stage.missed < stage.toRun then stage.toRun - stage.missed else 0
  }

  function Unclaimed(stages: seq<Stage>): nat {
    if stages == [] then 0 else Unclaimed(stages[..|stages| - 1]) + UnclaimedOf(stages[|stages| - 1])
  }

  /** The sub-agents of earlier executions, the records, and the reservations that have no record yet. */
  function Due(before: nat, s: Ledger): nat {
    before + s.records + Unclaimed(s.stages) + Held(s.tasks)
  }

  predicate CountInv(max: int, before: nat, s: Ledger) {
    && s.count >= 0
    && s.floored <= s.unpaid
    && s.count + s.unpaid == Due(before, s) + s.floored
    && (max > 0 && before <= max ==> s.count <= max)
  }

  lemma {:induction false} TaskMoves(tasks: seq<Task>, t: nat, task: Task)
    requires t < |tasks|
    ensures Held(tasks[t := task]) == Held(tasks) + (if HasReservation(task) then 1 else 0) - (if HasReservation(tasks[t]) then 1 else 0)
    ensures HasReservation(tasks[t]) ==> Held(tasks) > 0
  {
    var n := |tasks| - 1;
    if t < n {
      TaskMoves(tasks[..n], t, task);
      assert tasks[t := task][..n] == tasks[..n][t := task];
    } else {
      assert tasks[t := task][..n] == tasks[..n];
    }
  }

  lemma {:induction false} StageMoves(stages: seq<Stage>, i: nat, stage: Stage)
    requires i < |stages|
    ensures Unclaimed(stages[i := stage]) == Unclaimed(stages) + UnclaimedOf(stage) - UnclaimedOf(stages[i])
  {
    var n := |stages| - 1;
    if i < n {
      StageMoves(stages[..n], i, stage);
      assert stages[i := stage][..n] == stages[..n][i := stage];
    } else {
      assert stages[i := stage][..n] == stages[..n];
    }
  }

  lemma TaskStarts(tasks: seq<Task>, task: Task)
    ensures Held(tasks + [task]) == Held(tasks) + if HasReservation(task) then 1 else 0
  {
    assert (tasks + [task])[..|tasks|] == tasks;
  }

  lemma StageStarts(stages: seq<Stage>, stage: Stage)
    ensures Unclaimed(stages + [stage]) == Unclaimed(stages) + UnclaimedOf(stage)
  {
    assert (stages + [stage])[..|stages|] == stages;
  }

  /** Only stages that have reserved have agents. */
  predicate StagesStart(s: Ledger) {
    forall i :: 0 <= i < |s.stages| && !s.stages[i].reserved ==> s.stages[i].waiting == multiset{} && s.stages[i].missed == 0
  }

  lemma CountedKeepsCount(max: int, before: nat, s: Ledger, keys: seq<string>)
    requires CountInv(max, before, s) && StagesStart(s)
    ensures CountInv(max, before, Counted(s, keys)) && StagesStart(Counted(s, keys))
  {
    StageStarts(s.stages, Counted(s, keys).stages[|s.stages|]);
  }

  lemma FundedKeepsCount(max: int, before: nat, s: Ledger, i: nat)
    requires CountInv(max, before, s) && StagesStart(s)
    requires i < |s.stages| && !s.stages[i].reserved && Fits(max, s.count, s.stages[i].toRun)
    ensures CountInv(max, before, Funded(s, i)) && StagesStart(Funded(s, i))
  {
    StageMoves(s.stages, i, Funded(s, i).stages[i]);
  }

  lemma ComesKeepsCount(max: int, before: nat, s: Ledger, i: nat, key: string)
    requires CountInv(max, before, s) && StagesStart(s) && AgentWaits(s, i, key)
    ensures CountInv(max, before, Comes(s, i, key)) && StagesStart(Comes(s, i, key)) && s.stages[i].reserved
  {
    StageMoves(s.stages, i, Comes(s, i, key).stages[i]);
  }

  lemma MissedKeepsCount(max: int, before: nat, s: Ledger, i: nat)
    requires CountInv(max, before, s) && StagesStart(s) && i < |s.stages| && s.stages[i].reserved
    ensures CountInv(max, before, Missed(s, i)) && StagesStart(Missed(s, i))
  {
    StageMoves(s.stages, i, Missed(s, i).stages[i]);
    TaskStarts(s.tasks, Holding);
  }

  lemma GoneKeepsCount(max: int, before: nat, s: Ledger, t: nat, move: Move)
    requires CountInv(max, before, s) && t < |s.tasks| && CanMove(max, s.count, s.tasks[t], move)
    ensures CountInv(max, before, Gone(max, s, t, move))
  {
    TaskMoves(s.tasks, t, TaskAfter(max, s.count, s.tasks[t], move));
  }

  // ---- What each stage's agents find ----

  /** The takes, as those of the stage's own agents and those of others. */
  function ByStage(i: int, takes: seq<Take>): seq<TakeBy> {
    seq(|takes|, k requires 0 <= k < |takes| => if takes[k].stage == i then Own(takes[k].key) else Delegated(takes[k].key))
  }

  /** The takes since the stage counted its outputs. */
  function Since(s: Ledger, i: nat): seq<TakeBy>
    requires i < |s.stages| && s.stages[i].from <= |s.takes|
  {
    ByStage(i, s.takes[s.stages[i].from..])
  }

  predicate StageInv(s: Ledger, i: nat)
    requires i < |s.stages|
  {
    var stage := s.stages[i];
    && stage.from <= |s.takes|
    && stage.toRun == Misses(stage.recorded, stage.keys)
    && s.outputs == AfterTakes(stage.recorded, Since(s, i))
    && stage.missed == OwnMisses(stage.recorded, Since(s, i))
    && multiset(OwnKeys(Since(s, i))) + stage.waiting <= multiset(stage.keys)
    && (!stage.reserved ==> OwnKeys(Since(s, i)) == [])
  }

  lemma ByStageGrows(i: int, takes: seq<Take>, from: nat, take: Take)
    requires from <= |takes|
    ensures ByStage(i, (takes + [take])[from..]) ==
            ByStage(i, takes[from..]) + [if take.stage == i then Own(take.key) else Delegated(take.key)]
  {
    TailOfConcat(takes, [take], from);
  }

  /** A take keeps what is known of a stage that counts its own agents' misses. */
  lemma TakeKeepsStage(s: Ledger, take: Take, i: nat, t: Ledger)
    requires i < |s.stages| && i < |t.stages| && StageInv(s, i)
    requires t.outputs == Taken(s.outputs, take.key) && t.takes == s.takes + [take]
    requires var own := take.stage == i;
             && (own ==> take.key in s.stages[i].waiting && s.stages[i].reserved)
             && t.stages[i] == s.stages[i].(
                  waiting := s.stages[i].waiting - (if own then multiset{take.key} else multiset{}),
                  missed := s.stages[i].missed + if own && Left(s.outputs, take.key) == [] then 1 else 0)
    ensures StageInv(t, i)
  {
    var stage := s.stages[i];
    ByStageGrows(i, s.takes, stage.from, take);
    var last := if take.stage == i then Own(take.key) else Delegated(take.key);
    OneMoreTake(stage.recorded, Since(s, i), last);
    assert Since(t, i) == Since(s, i) + [last];
  }

  lemma CountedKeepsStage(s: Ledger, keys: seq<string>, i: nat)
    requires i < |s.stages| ==> StageInv(s, i)
    requires i <= |s.stages|
    ensures StageInv(Counted(s, keys), i)
  {
    if i < |s.stages| {
      assert Since(Counted(s, keys), i) == Since(s, i);
    } else {
      assert s.takes[|s.takes|..] == [];
    }
  }

  predicate StagesInv(s: Ledger) {
    StagesStart(s) && forall i :: 0 <= i < |s.stages| ==> StageInv(s, i)
  }

  /** What an agent's take changes: one more take, one agent fewer that waits, and perhaps one more miss of its stage. */
  lemma AgentTookStage(s: Ledger, j: nat, key: string, i: nat)
    requires i < |s.stages| && j < |s.stages|
    ensures var t := AgentTook(s, j, key);
            && t.outputs == Taken(s.outputs, key) && t.takes == s.takes + [Take(j, key)] && |t.stages| == |s.stages|
            && t.stages[i] == s.stages[i].(
                 waiting := s.stages[i].waiting - (if i == j then multiset{key} else multiset{}),
                 missed := s.stages[i].missed + if i == j && Left(s.outputs, key) == [] then 1 else 0)
  {
  }

  lemma AgentTookKeepsStage(s: Ledger, j: nat, key: string, i: nat)
    requires i < |s.stages| && StageInv(s, i) && AgentWaits(s, j, key) && s.stages[j].reserved
    ensures |AgentTook(s, j, key).stages| == |s.stages| && StageInv(AgentTook(s, j, key), i)
  {
    AgentTookStage(s, j, key, i);
    TakeKeepsStage(s, Take(j, key), i, AgentTook(s, j, key));
  }

  lemma AgentTookKeepsStages(s: Ledger, j: nat, key: string)
    requires StagesInv(s) && AgentWaits(s, j, key)
    ensures forall i :: 0 <= i < |s.stages| ==> StageInv(AgentTook(s, j, key), i)
  {
    forall i | 0 <= i < |s.stages| ensures StageInv(AgentTook(s, j, key), i) {
      AgentTookKeepsStage(s, j, key, i);
    }
  }

  lemma OtherTookKeepsStages(s: Ledger, key: string)
    requires StagesInv(s)
    ensures forall i :: 0 <= i < |s.stages| ==> StageInv(OtherTook(s, key), i)
  {
    var t := OtherTook(s, key);
    forall i | 0 <= i < |s.stages| ensures StageInv(t, i) {
      TakeKeepsStage(s, Take(NO_STAGE, key), i, t);
    }
  }

  /** No stage's agents have missed more than it counted. */
  predicate NoneOverdrawn(stages: seq<Stage>) {
    forall i :: 0 <= i < |stages| ==> stages[i].missed <= stages[i].toRun
  }

  /** Every miss beyond a reservation is some stage's. */
  predicate UnpaidInv(s: Ledger) {
    s.unpaid == 0 <==> NoneOverdrawn(s.stages)
  }

  lemma SameOverdrawn(stages: seq<Stage>, i: nat, stage: Stage)
    requires i < |stages| && (stage.missed <= stage.toRun <==> stages[i].missed <= stages[i].toRun)
    ensures NoneOverdrawn(stages[i := stage]) <==> NoneOverdrawn(stages)
  {
    if NoneOverdrawn(stages[i := stage]) {
      forall j | 0 <= j < |stages| ensures stages[j].missed <= stages[j].toRun {
        assert stages[i := stage][j].missed <= stages[i := stage][j].toRun;
      }
    }
  }

  lemma MissedKeepsUnpaid(s: Ledger, i: nat)
    requires UnpaidInv(s) && i < |s.stages|
    ensures UnpaidInv(Missed(s, i))
  {
    var stage := s.stages[i];
    if stage.missed < stage.toRun {
      SameOverdrawn(s.stages, i, stage.(missed := stage.missed + 1));
    } else {
      assert Missed(s, i).stages[i].missed > stage.toRun;
    }
  }

  lemma CountedKeepsUnpaid(s: Ledger, keys: seq<string>)
    requires UnpaidInv(s)
    ensures UnpaidInv(Counted(s, keys))
  {
    var t := Counted(s, keys);
    if NoneOverdrawn(t.stages) {
      forall i | 0 <= i < |s.stages| ensures s.stages[i].missed <= s.stages[i].toRun {
        assert t.stages[i].missed <= t.stages[i].toRun;
      }
    }
  }

  predicate Inv(max: int, before: nat, s: Ledger) {
    CountInv(max, before, s) && UnpaidInv(s) && StagesInv(s)
  }

  lemma AgentTookKeepsCount(max: int, before: nat, s: Ledger, i: nat, key: string)
    requires CountInv(max, before, s) && StagesStart(s) && AgentWaits(s, i, key)
    ensures CountInv(max, before, AgentTook(s, i, key)) && StagesStart(AgentTook(s, i, key))
    ensures s.unpaid <= AgentTook(s, i, key).unpaid
  {
    ComesKeepsCount(max, before, s, i, key);
    MissedKeepsCount(max, before, Took(Comes(s, i, key), Take(i, key)), i);
  }

  lemma AgentTookKeepsUnpaid(s: Ledger, i: nat, key: string)
    requires UnpaidInv(s) && AgentWaits(s, i, key)
    ensures UnpaidInv(AgentTook(s, i, key))
  {
    SameOverdrawn(s.stages, i, Comes(s, i, key).stages[i]);
    MissedKeepsUnpaid(Took(Comes(s, i, key), Take(i, key)), i);
  }

  lemma AgentTookKeeps(max: int, before: nat, s: Ledger, i: nat, key: string)
    requires Inv(max, before, s) && AgentWaits(s, i, key)
    ensures Inv(max, before, AgentTook(s, i, key)) && s.unpaid <= AgentTook(s, i, key).unpaid
  {
    AgentTookKeepsCount(max, before, s, i, key);
    AgentTookKeepsUnpaid(s, i, key);
    AgentTookKeepsStages(s, i, key);
    assert |AgentTook(s, i, key).stages| == |s.stages|;
  }

  lemma OtherTookKeeps(max: int, before: nat, s: Ledger, key: string)
    requires Inv(max, before, s)
    ensures Inv(max, before, OtherTook(s, key))
  {
    TaskStarts(s.tasks, Asking);
    OtherTookKeepsStages(s, key);
  }

  /** The stage has reserved, or fewer of its agents are waited for. */
  predicate OnlyWaits(s: Stage, t: Stage) {
    && t == s.(waiting := t.waiting, reserved := t.reserved)
    && if s.reserved then t.reserved && t.waiting <= s.waiting else t.waiting <= multiset(s.keys)
  }

  lemma SameSince(s: Ledger, t: Ledger)
    requires StagesInv(s) && StagesStart(t) && t.takes == s.takes && t.outputs == s.outputs && |t.stages| == |s.stages|
    requires forall i :: 0 <= i < |s.stages| ==> OnlyWaits(s.stages[i], t.stages[i])
    ensures StagesInv(t)
  {
    forall i | 0 <= i < |t.stages| ensures StageInv(t, i) {
      assert StageInv(s, i) && OnlyWaits(s.stages[i], t.stages[i]) && Since(t, i) == Since(s, i);
    }
  }

  lemma CountedKeeps(max: int, before: nat, s: Ledger, keys: seq<string>)
    requires Inv(max, before, s)
    ensures Inv(max, before, Counted(s, keys))
  {
    CountedKeepsCount(max, before, s, keys);
    CountedKeepsUnpaid(s, keys);
    forall i | 0 <= i <= |s.stages| ensures StageInv(Counted(s, keys), i) {
      CountedKeepsStage(s, keys, i);
    }
  }

  lemma FundedKeeps(max: int, before: nat, s: Ledger, i: nat)
    requires Inv(max, before, s) && i < |s.stages| && !s.stages[i].reserved && Fits(max, s.count, s.stages[i].toRun)
    ensures Inv(max, before, Funded(s, i))
  {
    FundedKeepsCount(max, before, s, i);
    SameOverdrawn(s.stages, i, Funded(s, i).stages[i]);
    SameSince(s, Funded(s, i));
  }

  lemma ComesKeeps(max: int, before: nat, s: Ledger, i: nat, key: string)
    requires Inv(max, before, s) && AgentWaits(s, i, key)
    ensures Inv(max, before, Comes(s, i, key))
  {
    ComesKeepsCount(max, before, s, i, key);
    SameOverdrawn(s.stages, i, Comes(s, i, key).stages[i]);
    SameSince(s, Comes(s, i, key));
  }

  lemma GoneKeeps(max: int, before: nat, s: Ledger, t: nat, move: Move)
    requires Inv(max, before, s) && t < |s.tasks| && CanMove(max, s.count, s.tasks[t], move)
    ensures Inv(max, before, Gone(max, s, t, move))
  {
    GoneKeepsCount(max, before, s, t, move);
    SameSince(s, Gone(max, s, t, move));
  }

  lemma StepKeeps(max: int, before: nat, s: Ledger, step: Step)
    requires Inv(max, before, s) && Enabled(max, s, step)
    ensures Inv(max, before, Apply(max, s, step)) && s.unpaid <= Apply(max, s, step).unpaid
  {
    match step
    case StageCounts(keys) => CountedKeeps(max, before, s, keys);
    case StageReserves(i) => FundedKeeps(max, before, s, i);
    case AgentTakes(i, key) => AgentTookKeeps(max, before, s, i, key);
    case AgentSkips(i, key) => ComesKeeps(max, before, s, i, key);
    case OtherTakes(key) => OtherTookKeeps(max, before, s, key);
    case Goes(t, move) => GoneKeeps(max, before, s, t, move);
  }

  lemma {:induction false} RunKeeps(max: int, before: nat, s: Ledger, steps: seq<Step>)
    requires Inv(max, before, s) && IsRun(max, s, steps)
    ensures Inv(max, before, After(max, s, steps)) && s.unpaid <= After(max, s, steps).unpaid
    decreases |steps|
  {
    if steps != [] {
      StepKeeps(max, before, s, steps[0]);
      RunKeeps(max, before, Apply(max, s, steps[0]), steps[1..]);
    }
  }

  // ---- What a run's steps say ----

  /** The task records that the steps create. */
  function Created(steps: seq<Step>): nat {
    if steps == [] then 0 else Created(steps[1..]) + if steps[0].Goes? && steps[0].move.Create? then 1 else 0
  }

  /** The takes that the steps make. */
  function TakesIn(steps: seq<Step>): seq<Take> {
    if steps == [] then []
    else
      (match steps[0]
       case AgentTakes(i, key) => [Take(i, key)]
       case OtherTakes(key) => [Take(NO_STAGE, key)]
       case _ => [])
      + TakesIn(steps[1..])
  }

  lemma StepTakes(max: int, s: Ledger, step: Step)
    requires Enabled(max, s, step)
    ensures Apply(max, s, step).takes == s.takes + TakesIn([step])
    ensures Apply(max, s, step).records == s.records + Created([step])
  {
    assert [step][1..] == [];
    Unit(s.takes);
    Unit(TakesIn([step]));
  }

  /** The ledger's records are those created, and its takes those made, in order. */
  lemma {:induction false} LedgerIsWhatHappened(max: int, s: Ledger, steps: seq<Step>)
    requires IsRun(max, s, steps)
    ensures After(max, s, steps).records == s.records + Created(steps)
    ensures After(max, s, steps).takes == s.takes + TakesIn(steps)
    decreases |steps|
  {
    if steps == [] {
      Unit(s.takes);
    } else {
      var rest := steps[1..];
      StepTakes(max, s, steps[0]);
      LedgerIsWhatHappened(max, Apply(max, s, steps[0]), rest);
      assert [steps[0]][1..] == [];
      Unit(TakesIn([steps[0]]));
      assert TakesIn(steps) == TakesIn([steps[0]]) + TakesIn(rest);
      Assoc(s.takes, TakesIn([steps[0]]), TakesIn(rest));
    }
  }

  // ---- The theorems ----

  /** The count is what it should be. */
  predicate Exact(before: nat, s: Ledger) {
    s.count == Due(before, s)
  }

  /** It is so at the start, and after each step. */
  predicate AlwaysExact(max: int, before: nat, s: Ledger, steps: seq<Step>)
    requires IsRun(max, s, steps)
    decreases |steps|
  {
    Exact(before, s) && (steps == [] || AlwaysExact(max, before, Apply(max, s, steps[0]), steps[1..]))
  }

  lemma InitHolds(max: int, before: nat, recorded: Outputs)
    ensures Inv(max, before, Init(before, recorded))
  {
  }

  /**
   * At every moment of every interleaving the count is the sub-agents of earlier
   * executions, the task records created, and the reservations without a record yet, less
   * the misses nobody reserved for, unless a release found nothing left to take back for
   * one. It never passes the limit.
   */
  lemma CountIsDueLessUnpaid(max: int, before: nat, recorded: Outputs, steps: seq<Step>)
    requires IsRun(max, Init(before, recorded), steps)
    ensures var s := After(max, Init(before, recorded), steps);
            && s.count == Due(before, s) - (s.unpaid - s.floored) && s.floored <= s.unpaid
            && (max > 0 && before <= max ==> s.count <= max)
  {
    InitHolds(max, before, recorded);
    RunKeeps(max, before, Init(before, recorded), steps);
  }

  lemma UnpaidIsSeen(max: int, before: nat, s: Ledger, step: Step)
    requires Inv(max, before, s) && Enabled(max, s, step) && s.unpaid == 0 < Apply(max, s, step).unpaid
    ensures !Exact(before, Apply(max, s, step))
  {
    StepKeeps(max, before, s, step);
    assert step.AgentTakes?;
    assert Apply(max, s, step).floored == s.floored;
  }

  lemma {:induction false} ExactUntilUnpaid(max: int, before: nat, s: Ledger, steps: seq<Step>)
    requires Inv(max, before, s) && IsRun(max, s, steps) && s.unpaid == 0
    ensures AlwaysExact(max, before, s, steps) <==> After(max, s, steps).unpaid == 0
    decreases |steps|
  {
    if steps != [] {
      var t := Apply(max, s, steps[0]);
      StepKeeps(max, before, s, steps[0]);
      if t.unpaid == 0 {
        ExactUntilUnpaid(max, before, t, steps[1..]);
      } else {
        UnpaidIsSeen(max, before, s, steps[0]);
        RunKeeps(max, before, t, steps[1..]);
      }
    }
  }

  /**
   * The count is exact throughout a run if and only if no stage's agents missed more often
   * than the stage counted; and then the records never pass the limit.
   */
  lemma CountIsExact(max: int, before: nat, recorded: Outputs, steps: seq<Step>)
    requires IsRun(max, Init(before, recorded), steps)
    ensures var s := After(max, Init(before, recorded), steps);
            && (AlwaysExact(max, before, Init(before, recorded), steps) <==> NoneOverdrawn(s.stages))
            && (NoneOverdrawn(s.stages) && max > 0 && before <= max ==> before + s.records <= s.count <= max)
  {
    InitHolds(max, before, recorded);
    RunKeeps(max, before, Init(before, recorded), steps);
    ExactUntilUnpaid(max, before, Init(before, recorded), steps);
  }

  /** The keys of all takes by others since the stage counted. */
  function OthersSince(s: Ledger, i: nat): seq<string>
    requires i < |s.stages| && s.stages[i].from <= |s.takes|
  {
    DelegatedKeys(Since(s, i))
  }

  /**
   * A stage counts what its agents would miss, and they miss what the interleaving of their
   * takes with all others makes of it: in the end never less, if they all take, and never
   * more where the recorded outputs suffice for all.
   */
  lemma StageMisses(max: int, before: nat, recorded: Outputs, steps: seq<Step>, i: nat)
    requires IsRun(max, Init(before, recorded), steps) && i < |After(max, Init(before, recorded), steps).stages|
    ensures var s := After(max, Init(before, recorded), steps);
            var stage := s.stages[i];
            && stage.from <= |s.takes|
            && stage.toRun == Misses(stage.recorded, stage.keys)
            && stage.missed == OwnMisses(stage.recorded, Since(s, i))
            && (multiset(OwnKeys(Since(s, i))) == multiset(stage.keys) ==> stage.toRun <= stage.missed)
            && (Suffice(stage.recorded, stage.keys, OthersSince(s, i)) ==> stage.missed <= stage.toRun)
  {
    InitHolds(max, before, recorded);
    RunKeeps(max, before, Init(before, recorded), steps);
    var s := After(max, Init(before, recorded), steps);
    var stage := s.stages[i];
    assert StageInv(s, i);
    if multiset(OwnKeys(Since(s, i))) == multiset(stage.keys) {
      ToRunIsNeverMore(stage.recorded, stage.keys, Since(s, i));
    }
    if Suffice(stage.recorded, stage.keys, OthersSince(s, i)) {
      SufficientForSome(stage.recorded, stage.keys, Since(s, i));
    }
  }

  /** The stage's recorded outputs suffice for its agents and for all who have taken beside them. */
  predicate StageSuffices(s: Ledger, i: nat) {
    && i < |s.stages| && s.stages[i].from <= |s.takes|
    && Suffice(s.stages[i].recorded, s.stages[i].keys, OthersSince(s, i))
  }

  /** With enough recorded outputs the count is exact, however many stages run, and however their agents end. */
  lemma EnoughOutputsKeepCount(max: int, before: nat, recorded: Outputs, steps: seq<Step>, s: Ledger)
    requires IsRun(max, Init(before, recorded), steps) && s == After(max, Init(before, recorded), steps)
    requires forall i :: 0 <= i < |s.stages| ==> StageSuffices(s, i)
    ensures AlwaysExact(max, before, Init(before, recorded), steps)
  {
    forall i | 0 <= i < |s.stages| ensures s.stages[i].missed <= s.stages[i].toRun {
      assert StageSuffices(s, i);
      StageMisses(max, before, recorded, steps, i);
    }
    CountIsExact(max, before, recorded, steps);
  }

  // ---- One stage, in every order ----

  /** A run in which the stage counts these outputs, all its agents take, and others take these keys. */
  predicate StageRun(max: int, before: nat, o: Outputs, keys: seq<string>, others: seq<string>, steps: seq<Step>) {
    && IsRun(max, Init(before, o), steps)
    && var s := After(max, Init(before, o), steps);
       && |s.stages| == 1 && s.stages[0].keys == keys && s.stages[0].recorded == o && s.stages[0].from <= |s.takes|
       && Interleaves(Since(s, 0), keys, others)
  }

  ghost predicate ExactInEveryRun(max: int, before: nat, o: Outputs, keys: seq<string>, others: seq<string>) {
    forall steps: seq<Step> :: StageRun(max, before, o, keys, others, steps) ==> AlwaysExact(max, before, Init(before, o), steps)
  }

  /** The count is exact in such a run exactly if toRun is for its takes. */
  lemma StageRunIsExact(max: int, before: nat, o: Outputs, keys: seq<string>, others: seq<string>, steps: seq<Step>)
    requires StageRun(max, before, o, keys, others, steps)
    ensures AlwaysExact(max, before, Init(before, o), steps) <==>
            OwnMisses(o, Since(After(max, Init(before, o), steps), 0)) == Misses(o, keys)
  {
    CountIsExact(max, before, o, steps);
    StageMisses(max, before, o, steps, 0);
  }

  function RawTake(take: TakeBy): Take {
    Take(if take.Own? then 0 else NO_STAGE, take.key)
  }

  function StepOf(take: TakeBy): Step {
    if take.Own? then AgentTakes(0, take.key) else OtherTakes(take.key)
  }

  function RawTakes(takes: seq<TakeBy>): seq<Take> {
    if takes == [] then [] else [RawTake(takes[0])] + RawTakes(takes[1..])
  }

  function StepsOf(takes: seq<TakeBy>): seq<Step> {
    if takes == [] then [] else [StepOf(takes[0])] + StepsOf(takes[1..])
  }

  lemma {:induction false} RawByStage(takes: seq<TakeBy>)
    ensures ByStage(0, RawTakes(takes)) == takes
  {
    if takes != [] {
      var rest := takes[1..];
      RawByStage(rest);
      assert ByStage(0, RawTakes(takes)) == [takes[0]] + ByStage(0, RawTakes(rest));
    }
  }

  predicate SameStage(s: Ledger, t: Ledger) {
    && |s.stages| == |t.stages| == 1
    && t.stages[0].keys == s.stages[0].keys && t.stages[0].recorded == s.stages[0].recorded && t.stages[0].from == s.stages[0].from
  }

  lemma OneTakeRuns(max: int, s: Ledger, take: TakeBy, own: multiset<string>)
    requires |s.stages| == 1 && own + (if take.Own? then multiset{take.key} else multiset{}) <= s.stages[0].waiting
    ensures Enabled(max, s, StepOf(take))
    ensures var t := Apply(max, s, StepOf(take));
            SameStage(s, t) && t.takes == s.takes + [RawTake(take)] && own <= t.stages[0].waiting
  {
  }

  lemma StepThen(max: int, s: Ledger, step: Step, rest: seq<Step>)
    requires Enabled(max, s, step) && IsRun(max, Apply(max, s, step), rest)
    ensures IsRun(max, s, [step] + rest) && After(max, s, [step] + rest) == After(max, Apply(max, s, step), rest)
  {
    assert ([step] + rest)[1..] == rest;
  }

  /** Any order of takes that the stage's waiting agents and others may make is a run. */
  lemma {:induction false} AnyOrderRuns(max: int, s: Ledger, takes: seq<TakeBy>)
    requires |s.stages| == 1 && multiset(OwnKeys(takes)) <= s.stages[0].waiting
    ensures IsRun(max, s, StepsOf(takes))
    ensures SameStage(s, After(max, s, StepsOf(takes))) && After(max, s, StepsOf(takes)).takes == s.takes + RawTakes(takes)
    decreases |takes|
  {
    if takes == [] {
      Unit(s.takes);
    } else {
      var take, rest := takes[0], takes[1..];
      OneTakeRuns(max, s, take, multiset(OwnKeys(rest)));
      AnyOrderRuns(max, Apply(max, s, StepOf(take)), rest);
      StepThen(max, s, StepOf(take), StepsOf(rest));
      Assoc(s.takes, [RawTake(take)], RawTakes(rest));
    }
  }

  lemma OrderRuns(max: int, before: nat, o: Outputs, keys: seq<string>, others: seq<string>, takes: seq<TakeBy>) returns (steps: seq<Step>)
    requires Interleaves(takes, keys, others) && Fits(max, before, Misses(o, keys))
    ensures StageRun(max, before, o, keys, others, steps)
    ensures Since(After(max, Init(before, o), steps), 0) == takes
  {
    var counted := Counted(Init(before, o), keys);
    var funded := Funded(counted, 0);
    AnyOrderRuns(max, funded, takes);
    StepThen(max, counted, StageReserves(0), StepsOf(takes));
    StepThen(max, Init(before, o), StageCounts(keys), [StageReserves(0)] + StepsOf(takes));
    steps := [StageCounts(keys)] + ([StageReserves(0)] + StepsOf(takes));
    var s := After(max, Init(before, o), steps);
    Unit(RawTakes(takes));
    assert s.takes == RawTakes(takes) && s.takes[0..] == s.takes;
    RawByStage(takes);
  }

  /**
   * A stage whose reservation is granted leaves the count exact in every order of its
   * agents' takes with those of others, and of all that follows them, exactly if each key
   * they share has no recorded output, or at least one for every take of it.
   */
  lemma StageIsExact(max: int, before: nat, o: Outputs, keys: seq<string>, others: seq<string>)
    requires Fits(max, before, Misses(o, keys))
    ensures ExactInEveryRun(max, before, o, keys, others) <==> Suffice(o, keys, others)
  {
    ToRunIsExact(o, keys, others);
    if Suffice(o, keys, others) {
      forall steps: seq<Step> | StageRun(max, before, o, keys, others, steps)
        ensures AlwaysExact(max, before, Init(before, o), steps)
      {
        StageRunIsExact(max, before, o, keys, others, steps);
      }
    } else {
      var takes: seq<TakeBy> :| Interleaves(takes, keys, others) && OwnMisses(o, takes) != Misses(o, keys);
      var steps := OrderRuns(max, before, o, keys, others, takes);
      StageRunIsExact(max, before, o, keys, others, steps);
    }
  }

  /** Such a run in which others take only after an agent of the stage has found nothing. */
  predicate DelegatingRun(max: int, before: nat, o: Outputs, keys: seq<string>, others: seq<string>, steps: seq<Step>) {
    && StageRun(max, before, o, keys, others, steps)
    && Caused(o, Since(After(max, Init(before, o), steps), 0))
  }

  ghost predicate ExactWhenDelegating(max: int, before: nat, o: Outputs, keys: seq<string>, others: seq<string>) {
    forall steps: seq<Step> :: DelegatingRun(max, before, o, keys, others, steps) ==> AlwaysExact(max, before, Init(before, o), steps)
  }

  /**
   * The same for the tasks that the stage's own agents delegate: the count is then exact
   * also where no step with another key has to run.
   */
  lemma DelegatingStageIsExact(max: int, before: nat, o: Outputs, keys: seq<string>, others: seq<string>)
    requires Fits(max, before, Misses(o, keys))
    ensures ExactWhenDelegating(max, before, o, keys, others) <==> SufficeWhenCaused(o, keys, others)
  {
    ToRunIsExactWhenCaused(o, keys, others);
    if ExactWhenCaused(o, keys, others) {
      forall steps: seq<Step> | DelegatingRun(max, before, o, keys, others, steps)
        ensures AlwaysExact(max, before, Init(before, o), steps)
      {
        StageRunIsExact(max, before, o, keys, others, steps);
      }
    } else {
      var takes: seq<TakeBy> :| Interleaves(takes, keys, others) && Caused(o, takes) && OwnMisses(o, takes) != Misses(o, keys);
      var steps := OrderRuns(max, before, o, keys, others, takes);
      StageRunIsExact(max, before, o, keys, others, steps);
    }
  }

  // ---- In the end ----

  lemma {:induction false} NothingHeld(tasks: seq<Task>)
    requires forall t :: 0 <= t < |tasks| ==> tasks[t].Ended?
    ensures Held(tasks) == 0
  {
    if tasks != [] {
      NothingHeld(tasks[..|tasks| - 1]);
    }
  }

  lemma {:induction false} NothingUnclaimed(stages: seq<Stage>)
    requires forall i :: 0 <= i < |stages| ==> UnclaimedOf(stages[i]) == 0
    ensures Unclaimed(stages) == 0
  {
    if stages != [] {
      NothingUnclaimed(stages[..|stages| - 1]);
    }
  }

  /** Every task has ended, and all agents of every stage that reserved have taken. */
  predicate Finished(s: Ledger) {
    && (forall t :: 0 <= t < |s.tasks| ==> s.tasks[t].Ended?)
    && forall i :: 0 <= i < |s.stages| && s.stages[i].reserved ==>
         s.stages[i].from <= |s.takes| && multiset(OwnKeys(Since(s, i))) == multiset(s.stages[i].keys)
  }

  /**
   * In the end the count is exactly the records created, where no stage's agents missed more
   * often than it counted; it is otherwise less by the misses that none had reserved for, as
   * far as releases found something to take back.
   */
  lemma CountIsRecordsInTheEnd(max: int, before: nat, recorded: Outputs, steps: seq<Step>)
    requires IsRun(max, Init(before, recorded), steps) && Finished(After(max, Init(before, recorded), steps))
    ensures var s := After(max, Init(before, recorded), steps);
            && s.count == before + s.records - (s.unpaid - s.floored)
            && (NoneOverdrawn(s.stages) ==> s.count == before + s.records)
  {
    var s := After(max, Init(before, recorded), steps);
    CountIsDueLessUnpaid(max, before, recorded, steps);
    CountIsExact(max, before, recorded, steps);
    InitHolds(max, before, recorded);
    RunKeeps(max, before, Init(before, recorded), steps);
    NothingHeld(s.tasks);
    forall i | 0 <= i < |s.stages| ensures UnclaimedOf(s.stages[i]) == 0 {
      StageMisses(max, before, recorded, steps, i);
    }
    NothingUnclaimed(s.stages);
  }

  // ---- A limit that is passed ----

  predicate Reaches(max: int, s: Ledger, steps: seq<Step>, end: Ledger) {
    IsRun(max, s, steps) && After(max, s, steps) == end
  }

  lemma StepReaches(max: int, s: Ledger, step: Step, rest: seq<Step>, end: Ledger) returns (steps: seq<Step>)
    requires Enabled(max, s, step) && Reaches(max, Apply(max, s, step), rest, end)
    ensures Reaches(max, s, steps, end)
  {
    StepThen(max, s, step, rest);
    steps := [step] + rest;
  }

  /** One agent of the stage has its record; the other has not taken its output. */
  function OneRuns(y: string, key: string, out: string): Ledger {
    var o: Outputs := map[key := [out]];
    Ledger(1, 1, 0, 0, o, [Take(0, y)], [Stage([y, key], o, 0, 1, true, multiset{key}, 1)], [Running])
  }

  /** The other agent finds its output gone, and runs on nothing. */
  function BothRun(y: string, key: string, out: string): Ledger {
    var o: Outputs := map[key := [out]];
    Ledger(1, 2, 1, 0, Taken(o, key), [Take(0, y), Take(NO_STAGE, key), Take(0, key)],
           [Stage([y, key], o, 0, 1, true, multiset{}, 2)], [Running, Running])
  }

  lemma ReachesBothRun(y: string, key: string, out: string) returns (steps: seq<Step>)
    requires y != key
    ensures Reaches(1, OneRuns(y, key, out), steps, BothRun(y, key, out))
  {
    var end := BothRun(y, key, out);
    var held := end.(records := 1, tasks := [Running, Holding]);
    steps := StepReaches(1, held, Goes(1, Create), [], end);
    var taken := Apply(1, OneRuns(y, key, out), OtherTakes(key));
    assert Left(taken.outputs, key) == [] && Taken(taken.outputs, key) == taken.outputs;
    assert multiset{key} - multiset{key} == multiset{};
    assert Apply(1, taken, AgentTakes(0, key)) == held;
    steps := StepReaches(1, taken, AgentTakes(0, key), steps, end);
    steps := StepReaches(1, OneRuns(y, key, out), OtherTakes(key), steps, end);
  }

  /** The stage has reserved one sub-agent, for the agent without an output. */
  function Begun(y: string, key: string, out: string): Ledger {
    var o: Outputs := map[key := [out]];
    Ledger(1, 0, 0, 0, o, [], [Stage([y, key], o, 0, 1, true, multiset{y, key}, 0)], [])
  }

  lemma ReachesBegun(y: string, key: string, out: string, rest: seq<Step>, end: Ledger) returns (steps: seq<Step>)
    requires y != key && Reaches(1, Begun(y, key, out), rest, end)
    ensures Reaches(1, Init(0, map[key := [out]]), steps, end)
  {
    var o: Outputs := map[key := [out]];
    assert [y, key][1..] == [key] && Misses(o, [key]) == 0 && Misses(o, [y, key]) == 1;
    var counted := Counted(Init(0, o), [y, key]);
    assert Funded(counted, 0) == Begun(y, key, out);
    steps := StepReaches(1, counted, StageReserves(0), rest, end);
    steps := StepReaches(1, Init(0, o), StageCounts([y, key]), steps, end);
  }

  lemma ReachesOneRuns(y: string, key: string, out: string, rest: seq<Step>, end: Ledger) returns (steps: seq<Step>)
    requires y != key && Reaches(1, OneRuns(y, key, out), rest, end)
    ensures Reaches(1, Begun(y, key, out), steps, end)
  {
    var held := OneRuns(y, key, out).(records := 0, tasks := [Holding]);
    assert [Holding][0 := Running] == [Running];
    assert Apply(1, held, Goes(0, Create)) == OneRuns(y, key, out);
    steps := StepReaches(1, held, Goes(0, Create), rest, end);
    assert multiset{y, key} - multiset{y} == multiset{key};
    assert Apply(1, Begun(y, key, out), AgentTakes(0, y)) == held;
    steps := StepReaches(1, Begun(y, key, out), AgentTakes(0, y), steps, end);
  }

  /**
   * Of a stage's two steps one has to run and the other's output is recorded, so one
   * sub-agent is reserved, which is the limit. The agent that runs delegates the other's
   * prompt, the delegated task takes the output, and the other agent runs on nothing: two
   * records under a limit of one.
   */
  lemma RecordsMayPassLimit(y: string, key: string, out: string) returns (steps: seq<Step>)
    requires y != key
    ensures Reaches(1, Init(0, map[key := [out]]), steps, BothRun(y, key, out))
    ensures BothRun(y, key, out).records == 2 && BothRun(y, key, out).count == 1
  {
    steps := ReachesBothRun(y, key, out);
    steps := ReachesOneRuns(y, key, out, steps, BothRun(y, key, out));
    steps := ReachesBegun(y, key, out, steps, BothRun(y, key, out));
  }
}
