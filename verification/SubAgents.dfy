/**
 * Sub-agent accounting of one task: every record it creates is counted once against its
 * run's budget, whether the task is reused, retried, refused, or never gets its record.
 */
module SubAgents {
  import opened Wrappers
  import opened Budget

  /**
   * How one attempt goes: its record cannot be created, it answers, or it fails. After a
   * failure `retries` says whether the error and the loop detector allow another attempt,
   * and `canceled` whether the context ends during the backoff before it.
   */
  datatype Attempt =
    | NoRecord(retries: bool, canceled: bool)
    | Fails(retries: bool, canceled: bool)
    | Answers(answer: string)

  /** attemptTask: the reservation becomes a task record, or is given back when there is none. */
  method AttemptTask(b: BudgetManager, run: string, attempt: Attempt) returns (created: nat)
    requires NonNegative(b.Used(run))
    modifies b
    ensures b.OnlyUsageOf(run)
    ensures var count := old(b.Used(run)).subAgents;
            b.Used(run) == old(b.Used(run)).(subAgents := if attempt.NoRecord? then Less(count, 1) else count)
    ensures created == if attempt.NoRecord? then 0 else 1
  {
    if attempt.NoRecord? {
      b.ReleaseSubAgent(run);
      return 0;
    }
    return 1;
  }

  predicate MayReserve(u: Usage, l: Limits) {
    CheckLimits(u.(subAgents := u.subAgents + 1), l).Ok?
  }

  /** What runTask does after a failed attempt: it goes on with a new reservation, or stops with none. */
  method PrepareRetry(b: BudgetManager, run: string, attempt: Attempt, more: bool) returns (goOn: bool)
    requires NonNegative(b.Used(run)) && !attempt.Answers?
    modifies b
    ensures b.OnlyUsageOf(run)
    ensures b.Used(run) == old(b.Used(run)).(subAgents := old(b.Used(run)).subAgents + if goOn then 1 else 0)
    ensures goOn <==> more && attempt.retries && !attempt.canceled && MayReserve(old(b.Used(run)), b.LimitsOf(run))
  {
    goOn := more && attempt.retries;
    if goOn {
      goOn := b.ReserveSubAgent(run);
    }
    if goOn && attempt.canceled {
      b.ReleaseSubAgent(run);
      goOn := false;
    }
  }

  /** A release that comes when nothing is counted any more takes nothing back. */
  function TakenBack(count: int, first: Attempt): int {
    if first.NoRecord? && count == 0 then 0 else 1
  }

  /** How many of the first attempts got a record. */
  function Records(script: nat -> Attempt, attempts: nat): (n: nat)
    ensures n <= attempts
  {
    if attempts == 0 then 0 else Records(script, attempts - 1) + if script(attempts).NoRecord? then 0 else 1
  }

  /** So many attempts were made: all but the last failed, and each of these might be retried. */
  predicate Made(script: nat -> Attempt, maxAttempts: int, attempts: nat) {
    && attempts >= 1 && (attempts > 1 ==> attempts <= maxAttempts)
    && forall k: nat :: 1 <= k < attempts ==> !script(k).Answers? && script(k).retries && !script(k).canceled
  }

  /** Why there is no further attempt, with this usage and these limits. */
  predicate GivesUp(attempt: Attempt, more: bool, u: Usage, l: Limits) {
    !attempt.Answers? && (!more || !attempt.retries || attempt.canceled || !MayReserve(u, l))
  }

  /**
   * The loop of runTask. It answers with the first attempt that does, and fails only after
   * one that is not retried: for the number of attempts, its error, its context or the
   * budget. The records created replace the one reservation of its caller.
   */
  method RunAttempts(b: BudgetManager, run: string, maxAttempts: int, script: nat -> Attempt)
    returns (r: Result<string>, created: nat, attempts: nat)
    requires NonNegative(b.Used(run))
    modifies b
    ensures b.OnlyUsageOf(run)
    ensures var count := old(b.Used(run)).subAgents;
            b.Used(run) == old(b.Used(run)).(subAgents := count - TakenBack(count, script(1)) + created)
    ensures Made(script, maxAttempts, attempts) && created == Records(script, attempts)
    ensures created <= if maxAttempts > 1 then maxAttempts else 1
    ensures r.Ok? ==> created > 0
    ensures if r.Ok? then script(attempts) == Answers(r.value)
            else GivesUp(script(attempts), attempts < maxAttempts, b.Used(run), b.LimitsOf(run))
  {
    created, attempts := 0, 1;
    ghost var count := b.Used(run).subAgents;
    while true
      invariant b.OnlyUsageOf(run) && Made(script, maxAttempts, attempts) && created == Records(script, attempts - 1)
      invariant attempts > 1 ==> created > 0 || script(1).NoRecord?
      invariant b.Used(run) ==
                old(b.Used(run)).(subAgents := count + created + if attempts > 1 then 1 - TakenBack(count, script(1)) else 0)
      decreases maxAttempts - attempts
    {
      var one := AttemptTask(b, run, script(attempts));
      created := created + one;
      if script(attempts).Answers? {
        return Ok(script(attempts).answer), created, attempts;
      }
      var goOn := PrepareRetry(b, run, script(attempts), attempts < maxAttempts);
      if !goOn {
        return Err("the attempt's error"), created, attempts;
      }
      attempts := attempts + 1;
    }
  }

  /**
   * runTask, alone on its run. `reused` is what taking a recorded output gave; `reserved`
   * says that the caller has reserved the first attempt. On every path the count changes by
   * exactly the task records created less the reservation claimed by the caller, whether or
   * not the count holds one; only where nothing is counted, and the first attempt gets no
   * record, is there nothing to take back. No attempt is made only for a reused output, which
   * is the answer, or without a reservation.
   */
  method RunTask(b: BudgetManager, run: string, reused: Option<string>, reserved: bool, maxAttempts: int, script: nat -> Attempt)
    returns (r: Result<string>, created: nat, attempts: nat)
    requires NonNegative(b.Used(run))
    modifies b
    ensures b.OnlyUsageOf(run)
    ensures var count := old(b.Used(run)).subAgents;
            b.Used(run) == old(b.Used(run)).(
                             subAgents := count + created - if reserved && reused.None? then TakenBack(count, script(1)) else 0)
    ensures created <= if maxAttempts > 1 then maxAttempts else 1
    ensures reused.Some? ==> r == Ok(reused.value) && created == 0
    ensures reused.None? && r.Ok? ==> created > 0
    ensures attempts == 0 <==> reused.Some? || (!reserved && !MayReserve(old(b.Used(run)), b.LimitsOf(run)))
    ensures attempts == 0 ==> created == 0 && (reused.None? ==> r.Err?)
    ensures attempts > 0 ==> Made(script, maxAttempts, attempts) && created == Records(script, attempts)
    ensures attempts > 0 ==> if r.Ok? then script(attempts) == Answers(r.value)
                             else GivesUp(script(attempts), attempts < maxAttempts, b.Used(run), b.LimitsOf(run))
  {
    if reused.Some? {
      return Ok(reused.value), 0, 0;
    }
    if !reserved {
      var ok := b.ReserveSubAgent(run);
      if !ok {
        return Err("budget exceeded"), 0, 0;
      }
    }
    r, created, attempts := RunAttempts(b, run, maxAttempts, script);
  }
}
