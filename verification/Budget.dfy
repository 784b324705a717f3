/** The budget manager: what each run has used, against its limits. */
module Budget {
  import opened Wrappers

  datatype Usage = Usage(
    promptTokens: int, completionTokens: int, cachedTokens: int, totalTokens: int,
    costUnits: int, modelCalls: int, toolCalls: int, subAgents: int, runtime: int)

  const ZERO: Usage := Usage(0, 0, 0, 0, 0, 0, 0, 0, 0)

  const ONE_SUB_AGENT: Usage := ZERO.(subAgents := 1)

  /** Zero or less means unlimited. */
  datatype Limits = Limits(
    maxToolCalls: int, maxModelCalls: int, maxSubAgents: int,
    maxPromptTokens: int, maxCompletionTokens: int, maxCostUnits: int)

  const UNLIMITED: Limits := Limits(0, 0, 0, 0, 0, 0)

  function Plus(u: Usage, v: Usage): Usage {
    Usage(u.promptTokens + v.promptTokens, u.completionTokens + v.completionTokens, u.cachedTokens + v.cachedTokens,
          u.totalTokens + v.totalTokens, u.costUnits + v.costUnits, u.modelCalls + v.modelCalls,
          u.toolCalls + v.toolCalls, u.subAgents + v.subAgents, u.runtime + v.runtime)
  }

  function Less(a: int, b: int): int {
    if a > b then a - b else 0
  }

  function Minus(u: Usage, v: Usage): Usage {
    Usage(Less(u.promptTokens, v.promptTokens), Less(u.completionTokens, v.completionTokens), Less(u.cachedTokens, v.cachedTokens),
          Less(u.totalTokens, v.totalTokens), Less(u.costUnits, v.costUnits), Less(u.modelCalls, v.modelCalls),
          Less(u.toolCalls, v.toolCalls), Less(u.subAgents, v.subAgents), Less(u.runtime, v.runtime))
  }

  predicate Exceeds(used: int, limit: int) {
    limit > 0 && used > limit
  }

  predicate WithinLimits(u: Usage, l: Limits) {
    && (l.maxToolCalls > 0 ==> u.toolCalls <= l.maxToolCalls) && (l.maxModelCalls > 0 ==> u.modelCalls <= l.maxModelCalls)
    && (l.maxSubAgents > 0 ==> u.subAgents <= l.maxSubAgents) && (l.maxPromptTokens > 0 ==> u.promptTokens <= l.maxPromptTokens)
    && (l.maxCompletionTokens > 0 ==> u.completionTokens <= l.maxCompletionTokens)
    && (l.maxCostUnits > 0 ==> u.costUnits <= l.maxCostUnits)
  }

  /** checkLimits: the first limit that is exceeded. */
  function CheckLimits(u: Usage, l: Limits): (r: Result<()>)
    ensures r.Ok? <==> WithinLimits(u, l)
  {
    if Exceeds(u.toolCalls, l.maxToolCalls) then Err("tool calls")
    else if Exceeds(u.modelCalls, l.maxModelCalls) then Err("model calls")
    else if Exceeds(u.subAgents, l.maxSubAgents) then Err("sub agents")
    else if Exceeds(u.promptTokens, l.maxPromptTokens) then Err("prompt tokens")
    else if Exceeds(u.completionTokens, l.maxCompletionTokens) then Err("completion tokens")
    else if Exceeds(u.costUnits, l.maxCostUnits) then Err("cost units")
    else Ok(())
  }

  predicate NonNegative(u: Usage) {
    && u.promptTokens >= 0 && u.completionTokens >= 0 && u.cachedTokens >= 0 && u.totalTokens >= 0
    && u.costUnits >= 0 && u.modelCalls >= 0 && u.toolCalls >= 0 && u.subAgents >= 0 && u.runtime >= 0
  }

  /** Taking back what was reserved restores the usage; taking back anything else never makes it negative. */
  lemma ReleaseUndoesReserve(u: Usage, v: Usage)
    requires NonNegative(u) && NonNegative(v)
    ensures Minus(Plus(u, v), v) == u
    ensures NonNegative(Minus(u, v))
  {
  }

  lemma PlusOne(u: Usage)
    ensures Plus(u, ONE_SUB_AGENT) == u.(subAgents := u.subAgents + 1)
  {
  }

  class BudgetManager {
    var usage: map<string, Usage>
    var limits: map<string, Limits>

    constructor ()
      ensures usage == map[] && limits == map[]
    {
      usage, limits := map[], map[];
    }

    function Used(run: string): Usage
      reads this
    {
      if run in usage then usage[run] else ZERO
    }

    function LimitsOf(run: string): Limits
      reads this
    {
      if run in limits then limits[run] else UNLIMITED
    }

    /** No other run's usage has changed, and no run's limits. */
    twostate predicate OnlyUsageOf(run: string)
      reads this
    {
      limits == old(limits) && forall other :: other != run ==> Used(other) == old(Used(other))
    }

    method Init(run: string, l: Limits)
      modifies this
      ensures Used(run) == old(Used(run)) && LimitsOf(run) == l
      ensures forall other :: other != run ==> Used(other) == old(Used(other)) && LimitsOf(other) == old(LimitsOf(other))
    {
      if run !in usage {
        usage := usage[run := ZERO];
      }
      limits := limits[run := l];
    }

    /** A reservation that would exceed a limit leaves the usage unchanged. */
    method Reserve(run: string, used: Usage) returns (r: Result<()>)
      modifies this
      ensures OnlyUsageOf(run)
      ensures r == CheckLimits(Plus(old(Used(run)), used), LimitsOf(run))
      ensures r.Ok? <==> WithinLimits(Plus(old(Used(run)), used), LimitsOf(run))
      ensures Used(run) == if r.Ok? then Plus(old(Used(run)), used) else old(Used(run))
    {
      if run !in usage {
        usage := usage[run := ZERO];
      }
      var next := Plus(usage[run], used);
      r := CheckLimits(next, LimitsOf(run));
      if r.Err? {
        return;
      }
      usage := usage[run := next];
    }

    method Release(run: string, used: Usage)
      modifies this
      ensures OnlyUsageOf(run)
      ensures Used(run) == if run in old(usage) then Minus(old(Used(run)), used) else ZERO
    {
      if run !in usage {
        return;
      }
      usage := usage[run := Minus(usage[run], used)];
    }

    method ReserveSubAgent(run: string) returns (ok: bool)
      modifies this
      ensures OnlyUsageOf(run)
      ensures Used(run) == if ok then old(Used(run)).(subAgents := old(Used(run)).subAgents + 1) else old(Used(run))
      ensures ok <==> CheckLimits(old(Used(run)).(subAgents := old(Used(run)).subAgents + 1), LimitsOf(run)).Ok?
    {
      PlusOne(Used(run));
      var r := Reserve(run, ONE_SUB_AGENT);
      ok := r.Ok?;
    }

    method ReleaseSubAgent(run: string)
      requires NonNegative(Used(run))
      modifies this
      ensures OnlyUsageOf(run)
      ensures Used(run) == old(Used(run)).(subAgents := Less(old(Used(run)).subAgents, 1))
    {
      Release(run, ONE_SUB_AGENT);
    }

    /** Usage that happened is recorded even when it exceeds a limit. */
    method Commit(run: string, used: Usage) returns (r: Result<()>)
      modifies this
      ensures OnlyUsageOf(run)
      ensures Used(run) == Plus(old(Used(run)), used) && r == CheckLimits(Used(run), LimitsOf(run))
    {
      if run !in usage {
        usage := usage[run := ZERO];
      }
      usage := usage[run := Plus(usage[run], used)];
      r := CheckLimits(usage[run], LimitsOf(run));
    }
  }
}
