/**
 * Fan-in: how the results of the agents of a parallel stage, and of the tool calls of one
 * model reply, become one outcome although they arrive in any order.
 */
module FanIn {
  import opened Wrappers
  import opened Collections
  import opened Graph

  /** What arrives of the agent or the tool call with this index: what it gives, or the error it ended with. */
  datatype Indexed<T> = Indexed(idx: nat, item: Result<T>)

  predicate DistinctIdx<T>(xs: seq<Indexed<T>>) {
    forall j, k :: 0 <= j < k < |xs| ==> xs[j].idx != xs[k].idx
  }

  /** Every index below n arrives once. */
  predicate EachOnce<T>(xs: seq<Indexed<T>>, n: nat) {
    |xs| == n && DistinctIdx(xs) && forall k :: 0 <= k < n ==> xs[k].idx < n
  }

  predicate SortedIdx<T>(xs: seq<Indexed<T>>) {
    forall j, k :: 0 <= j < k < |xs| ==> xs[j].idx < xs[k].idx
  }

  predicate AllAbove<T>(low: int, xs: seq<Indexed<T>>) {
    forall k :: 0 <= k < |xs| ==> low < xs[k].idx
  }

  function Insert<T>(x: Indexed<T>, ys: seq<Indexed<T>>): seq<Indexed<T>> {
    if ys == [] || x.idx < ys[0].idx then [x] + ys else [ys[0]] + Insert(x, ys[1..])
  }

  /** sort.Slice by index. */
  function SortByIdx<T>(xs: seq<Indexed<T>>): seq<Indexed<T>> {
    if xs == [] then [] else Insert(xs[0], SortByIdx(xs[1..]))
  }

  lemma {:induction false} InsertKeeps<T>(x: Indexed<T>, ys: seq<Indexed<T>>)
    ensures multiset(Insert(x, ys)) == multiset{x} + multiset(ys)
  {
    if ys != [] && x.idx >= ys[0].idx {
      InsertKeeps(x, ys[1..]);
      assert ys == [ys[0]] + ys[1..];
    }
  }

  lemma {:induction false} InsertSorts<T>(x: Indexed<T>, ys: seq<Indexed<T>>, low: int)
    requires SortedIdx(ys) && low < x.idx && AllAbove(low, ys)
    requires forall k :: 0 <= k < |ys| ==> ys[k].idx != x.idx
    ensures SortedIdx(Insert(x, ys)) && AllAbove(low, Insert(x, ys))
  {
    if ys != [] && x.idx >= ys[0].idx {
      InsertSorts(x, ys[1..], ys[0].idx);
    }
  }

  lemma {:induction false} SortKeeps<T>(xs: seq<Indexed<T>>)
    ensures multiset(SortByIdx(xs)) == multiset(xs) && |SortByIdx(xs)| == |xs|
  {
    if xs != [] {
      SortKeeps(xs[1..]);
      assert xs == [xs[0]] + xs[1..];
      InsertKeeps(xs[0], SortByIdx(xs[1..]));
    }
    assert |multiset(SortByIdx(xs))| == |multiset(xs)|;
  }

  lemma SortedIsFrom<T>(xs: seq<Indexed<T>>, k: nat)
    requires k < |SortByIdx(xs)|
    ensures SortByIdx(xs)[k] in xs
  {
    SortKeeps(xs);
    assert SortByIdx(xs)[k] in multiset(SortByIdx(xs));
  }

  lemma {:induction false} SortSorts<T>(xs: seq<Indexed<T>>)
    requires DistinctIdx(xs)
    ensures SortedIdx(SortByIdx(xs))
  {
    if xs != [] {
      var rest := SortByIdx(xs[1..]);
      SortSorts(xs[1..]);
      forall k | 0 <= k < |rest| ensures rest[k].idx != xs[0].idx {
        SortedIsFrom(xs[1..], k);
        var j :| 0 <= j < |xs[1..]| && xs[1..][j] == rest[k];
        assert xs[j + 1] == rest[k];
      }
      InsertSorts(xs[0], rest, -1);
    }
  }

  lemma {:induction false} SortedIdxLow<T>(ys: seq<Indexed<T>>, k: nat)
    requires SortedIdx(ys) && k < |ys|
    ensures ys[k].idx >= k
  {
    if k > 0 {
      SortedIdxLow(ys, k - 1);
    }
  }

  lemma {:induction false} SortedIdxHigh<T>(ys: seq<Indexed<T>>, n: nat, k: nat)
    requires SortedIdx(ys) && k < |ys| == n && forall j :: 0 <= j < n ==> ys[j].idx < n
    ensures ys[k].idx <= k
    decreases n - k
  {
    if k + 1 < n {
      SortedIdxHigh(ys, n, k + 1);
    }
  }

  /** Sorting what arrived puts the item of index k in place k, whatever the order of arrival. */
  lemma SortRestoresOrder<T>(xs: seq<Indexed<T>>, n: nat)
    requires EachOnce(xs, n)
    ensures |SortByIdx(xs)| == n
    ensures forall k :: 0 <= k < n ==> SortByIdx(xs)[k].idx == k && SortByIdx(xs)[k] in xs
  {
    var ys := SortByIdx(xs);
    SortKeeps(xs);
    SortSorts(xs);
    forall j | 0 <= j < n ensures ys[j].idx < n && ys[j] in xs {
      SortedIsFrom(xs, j);
    }
    forall k | 0 <= k < n ensures ys[k].idx == k {
      SortedIdxLow(ys, k);
      SortedIdxHigh(ys, n, k);
    }
  }

  /** A full set of arrivals covers every index. */
  lemma ArrivalOf<T>(xs: seq<Indexed<T>>, n: nat, i: nat) returns (k: nat)
    requires EachOnce(xs, n) && i < n
    ensures k < n && xs[k].idx == i
  {
    SortRestoresOrder(xs, n);
    var y := SortByIdx(xs)[i];
    k :| 0 <= k < n && xs[k] == y;
  }

  // ---- Tool results ----

  /** The result of one reply's tool calls: the error of the first call that failed, or all messages, in call order. */
  function InCallOrder<T>(results: seq<Result<T>>): Result<seq<T>> {
    if results == [] then Ok([])
    else if results[0].Err? then Err(results[0].error)
    else
      match InCallOrder(results[1..])
      case Err(e) => Err(e)
      case Ok(rest) => Ok([results[0].value] + rest)
  }

  lemma SortedItems<T>(arrivals: seq<Indexed<T>>, results: seq<Result<T>>, k: nat)
    requires EachOnce(arrivals, |results|) && k < |results|
    requires forall j :: 0 <= j < |arrivals| ==> arrivals[j].item == results[arrivals[j].idx]
    ensures |SortByIdx(arrivals)| == |results| && SortByIdx(arrivals)[k].item == results[k]
  {
    SortRestoresOrder(arrivals, |results|);
    var j :| 0 <= j < |arrivals| && arrivals[j] == SortByIdx(arrivals)[k];
  }

  /** The end of runToolCalls: collects results as they arrive, sorts them and stops at the first error. */
  method CollectToolResults<T>(arrivals: seq<Indexed<T>>, ghost results: seq<Result<T>>) returns (r: Result<seq<T>>)
    requires EachOnce(arrivals, |results|)
    requires forall k :: 0 <= k < |arrivals| ==> arrivals[k].item == results[arrivals[k].idx]
    ensures r == InCallOrder(results)
  {
    var collected: seq<Indexed<T>> := [];
    for k := 0 to |arrivals|
      invariant collected == arrivals[..k]
    {
      collected := collected + [arrivals[k]];
    }
    assert collected == arrivals;
    SortRestoresOrder(collected, |results|);
    collected := SortByIdx(collected);
    var out: seq<T> := [];
    assert results[0..] == results;
    NothingPrepended(InCallOrder(results));
    for k := 0 to |collected|
      invariant collected == SortByIdx(arrivals)
      invariant InCallOrder(results) == Prepended(out, InCallOrder(results[k..]))
    {
      SortedItems(arrivals, results, k);
      assert results[k..][1..] == results[k + 1..];
      if collected[k].item.Err? {
        return Err(collected[k].item.error);
      }
      PrependedTwice(out, [collected[k].item.value], InCallOrder(results[k + 1..]));
      out := out + [collected[k].item.value];
    }
    assert results[|collected|..] == [];
    Unit(out);
    return Ok(out);
  }

  function Prepended<T>(out: seq<T>, rest: Result<seq<T>>): Result<seq<T>> {
    match rest
    case Err(e) => Err(e)
    case Ok(more) => Ok(out + more)
  }

  lemma NothingPrepended<T>(rest: Result<seq<T>>)
    ensures Prepended([], rest) == rest
  {
    if rest.Ok? {
      Unit(rest.value);
    }
  }

  lemma PrependedTwice<T>(a: seq<T>, b: seq<T>, rest: Result<seq<T>>)
    ensures Prepended(a, Prepended(b, rest)) == Prepended(a + b, rest)
  {
    if rest.Ok? {
      Assoc(a, b, rest.value);
    }
  }

  // ---- Parallel stages ----

  /** An agent's answer, or the error it ended with. */
  type Outcome = Result<string>

  datatype FailurePolicy = FailFast | WaitAll | BestEffort | Quorum(needed: nat)

  predicate StageFits(policy: FailurePolicy, n: nat) {
    n > 0 && (policy.Quorum? ==> 1 <= policy.needed <= n)
  }

  function FailedSet(outcomes: seq<Outcome>): (s: set<nat>) {
    set i: nat | i < |outcomes| && outcomes[i].Err?
  }

  /** Whether a stage succeeds, given each agent's outcome. */
  predicate Succeeds(policy: FailurePolicy, outcomes: seq<Outcome>) {
    var failures := |FailedSet(outcomes)|;
    match policy
    case FailFast => failures == 0
    case WaitAll => failures == 0
    case BestEffort => failures < |outcomes|
    case Quorum(needed) => |outcomes| - failures >= needed
  }

  /** The outputs of the agents that succeeded, from step k on, in step order. */
  function Parts(names: seq<string>, outcomes: seq<Outcome>, k: nat): seq<string>
    requires |names| == |outcomes| && k <= |names|
    decreases |names| - k
  {
    if k == |names| then []
    else
      (if outcomes[k].Ok? then [names[k] + "=" + outcomes[k].value] else []) + Parts(names, outcomes, k + 1)
  }

  lemma {:induction false} PartsOfSuccesses(names: seq<string>, outcomes: seq<Outcome>, k: nat)
    requires |names| == |outcomes| && k <= |names|
    ensures Parts(names, outcomes, k) != [] <==> exists i :: k <= i < |outcomes| && outcomes[i].Ok?
    decreases |names| - k
  {
    if k < |names| {
      PartsOfSuccesses(names, outcomes, k + 1);
    }
  }

  function Join(parts: seq<string>): string {
    if parts == [] then ""
    else if |parts| == 1 then parts[0]
    else parts[0] + "\n" + Join(parts[1..])
  }

  /** The text is these lines, with a newline between one and the next. */
  predicate ReadsAs(text: string, lines: seq<string>)
    decreases |lines|
  {
    if lines == [] then text == ""
    else if |lines| == 1 then text == lines[0]
    else
      var n := |lines[0]|;
      n < |text| && text[..n] == lines[0] && text[n] == '\n' && ReadsAs(text[n + 1..], lines[1..])
  }

  lemma {:induction false} JoinReads(parts: seq<string>)
    ensures ReadsAs(Join(parts), parts)
    decreases |parts|
  {
    if |parts| > 1 {
      JoinReads(parts[1..]);
      var n := |parts[0]|;
      assert Join(parts)[n + 1..] == Join(parts[1..]) && Join(parts)[..n] == parts[0];
    }
  }

  /** These are the agents from step k on that succeeded, in step order. */
  predicate Succeeded(outcomes: seq<Outcome>, k: nat, steps: seq<nat>) {
    && (forall i :: 0 <= i < |steps| ==> k <= steps[i] < |outcomes| && outcomes[steps[i]].Ok?)
    && (forall i, j :: 0 <= i < j < |steps| ==> steps[i] < steps[j])
    && forall i: nat :: k <= i < |outcomes| && outcomes[i].Ok? ==> i in steps
  }

  predicate LineOf(names: seq<string>, outcomes: seq<Outcome>, i: nat, line: string) {
    i < |names| && i < |outcomes| && outcomes[i].Ok? && line == names[i] + "=" + outcomes[i].value
  }

  predicate LinesOf(names: seq<string>, outcomes: seq<Outcome>, steps: seq<nat>, lines: seq<string>) {
    |lines| == |steps| && forall i :: 0 <= i < |steps| ==> LineOf(names, outcomes, steps[i], lines[i])
  }

  lemma OneMoreSucceeded(outcomes: seq<Outcome>, k: nat, rest: seq<nat>)
    requires k < |outcomes| && Succeeded(outcomes, k + 1, rest)
    ensures Succeeded(outcomes, k, if outcomes[k].Ok? then [k] + rest else rest)
  {
    var steps := if outcomes[k].Ok? then [k] + rest else rest;
    forall i: nat | k <= i < |outcomes| && outcomes[i].Ok? ensures i in steps {
      if i > k {
        assert i in rest;
      } else {
        assert steps[0] == i;
      }
    }
  }

  lemma OneMoreLine(names: seq<string>, outcomes: seq<Outcome>, i: nat, line: string, steps: seq<nat>, lines: seq<string>)
    requires LineOf(names, outcomes, i, line) && LinesOf(names, outcomes, steps, lines)
    ensures LinesOf(names, outcomes, [i] + steps, [line] + lines)
  {
    forall j | 0 <= j < |[i] + steps| ensures LineOf(names, outcomes, ([i] + steps)[j], ([line] + lines)[j]) {
      if j > 0 {
        assert LineOf(names, outcomes, steps[j - 1], lines[j - 1]);
      }
    }
  }

  lemma {:induction false} PartsAreLines(names: seq<string>, outcomes: seq<Outcome>, k: nat) returns (steps: seq<nat>)
    requires |names| == |outcomes| && k <= |names|
    ensures Succeeded(outcomes, k, steps) && LinesOf(names, outcomes, steps, Parts(names, outcomes, k))
    decreases |names| - k
  {
    steps := [];
    if k < |names| {
      steps := PartsAreLines(names, outcomes, k + 1);
      OneMoreSucceeded(outcomes, k, steps);
      var lines := Parts(names, outcomes, k + 1);
      if outcomes[k].Ok? {
        OneMoreLine(names, outcomes, k, names[k] + "=" + outcomes[k].value, steps, lines);
        steps := [k] + steps;
      } else {
        Unit(lines);
      }
    }
  }

  /** The text has a line for each agent that succeeded, in step order: its name, an equals sign and its answer. */
  ghost predicate ListsSuccesses(names: seq<string>, outcomes: seq<Outcome>, text: string) {
    exists steps: seq<nat>, lines: seq<string> ::
      Succeeded(outcomes, 0, steps) && LinesOf(names, outcomes, steps, lines) && ReadsAs(text, lines)
  }

  lemma JoinedPartsList(names: seq<string>, outcomes: seq<Outcome>)
    requires |names| == |outcomes|
    ensures ListsSuccesses(names, outcomes, Join(Parts(names, outcomes, 0)))
  {
    var steps := PartsAreLines(names, outcomes, 0);
    JoinReads(Parts(names, outcomes, 0));
  }

  /** Whether this failure, the one that makes `failures`, ends the stage. */
  predicate Decides(policy: FailurePolicy, n: nat, failures: nat) {
    policy.FailFast? || (policy.Quorum? && failures > n - policy.needed)
  }

  function FailuresIn(arrivals: seq<Indexed<string>>): nat {
    if arrivals == [] then 0
    else
      var last := |arrivals| - 1;
      FailuresIn(arrivals[..last]) + if arrivals[last].item.Err? then 1 else 0
  }

  /** The stage has already failed, and its other agents have been cancelled, after these arrivals. */
  predicate Cancelled(policy: FailurePolicy, n: nat, arrivals: seq<Indexed<string>>) {
    FailuresIn(arrivals) > 0 && Decides(policy, n, FailuresIn(arrivals))
  }

  /** Until the stage has failed, each agent's result is its own outcome; agents cancelled by the failure may return anything. */
  predicate Arrive(policy: FailurePolicy, outcomes: seq<Outcome>, arrivals: seq<Indexed<string>>) {
    && EachOnce(arrivals, |outcomes|)
    && forall k :: 0 <= k < |arrivals| && !Cancelled(policy, |outcomes|, arrivals[..k]) ==>
         arrivals[k].item == outcomes[arrivals[k].idx]
  }

  /** The agents that failed among the first k arrivals. */
  function FailedAmong(arrivals: seq<Indexed<string>>, k: nat): set<nat>
    requires k <= |arrivals|
  {
    if k == 0 then {}
    else FailedAmong(arrivals, k - 1) + if arrivals[k - 1].item.Err? then {arrivals[k - 1].idx} else {}
  }

  lemma {:induction false} FailedAmongFrom(arrivals: seq<Indexed<string>>, k: nat, i: nat)
    requires k <= |arrivals|
    ensures i in FailedAmong(arrivals, k) <==> exists j :: 0 <= j < k && arrivals[j].idx == i && arrivals[j].item.Err?
  {
    if k > 0 {
      FailedAmongFrom(arrivals, k - 1, i);
    }
  }

  lemma {:induction false} FailedAmongCounts(arrivals: seq<Indexed<string>>, k: nat)
    requires DistinctIdx(arrivals) && k <= |arrivals|
    ensures |FailedAmong(arrivals, k)| == FailuresIn(arrivals[..k])
  {
    if k > 0 {
      FailedAmongCounts(arrivals, k - 1);
      assert arrivals[..k][..k - 1] == arrivals[..k - 1];
      FailedAmongFrom(arrivals, k - 1, arrivals[k - 1].idx);
    }
  }

  /** While all results are the agents' own, an agent counted as failed did fail. */
  lemma FailedAmongFailed(outcomes: seq<Outcome>, arrivals: seq<Indexed<string>>, k: nat)
    requires EachOnce(arrivals, |outcomes|) && k <= |arrivals|
    requires forall j :: 0 <= j < k ==> arrivals[j].item == outcomes[arrivals[j].idx]
    ensures FailedAmong(arrivals, k) <= FailedSet(outcomes)
  {
    if k > 0 {
      FailedAmongFailed(outcomes, arrivals, k - 1);
    }
  }

  lemma FailureArrives(outcomes: seq<Outcome>, arrivals: seq<Indexed<string>>, i: nat)
    requires EachOnce(arrivals, |outcomes|) && i < |outcomes| && outcomes[i].Err?
    requires forall j :: 0 <= j < |arrivals| ==> arrivals[j].item == outcomes[arrivals[j].idx]
    ensures i in FailedAmong(arrivals, |arrivals|)
  {
    var j := ArrivalOf(arrivals, |outcomes|, i);
    FailedAmongFrom(arrivals, |arrivals|, i);
  }

  /** While all results are the agents' own, no more failures have been counted than there are, and in the end just as many. */
  lemma FailuresCounted(outcomes: seq<Outcome>, arrivals: seq<Indexed<string>>, k: nat)
    requires EachOnce(arrivals, |outcomes|) && k <= |arrivals|
    requires forall j :: 0 <= j < k ==> arrivals[j].item == outcomes[arrivals[j].idx]
    ensures FailuresIn(arrivals[..k]) <= |FailedSet(outcomes)|
    ensures k == |arrivals| ==> FailuresIn(arrivals) == |FailedSet(outcomes)|
  {
    FailedAmongCounts(arrivals, k);
    FailedAmongFailed(outcomes, arrivals, k);
    SubsetSize(FailedAmong(arrivals, k), FailedSet(outcomes));
    if k == |arrivals| {
      assert arrivals[..k] == arrivals;
      forall i: nat | i < |outcomes| && outcomes[i].Err? {
        FailureArrives(outcomes, arrivals, i);
      }
      SubsetSize(FailedSet(outcomes), FailedAmong(arrivals, k));
    }
  }

  /** The stage is first cancelled by the k-th arrival. */
  predicate FirstCancelled(policy: FailurePolicy, n: nat, arrivals: seq<Indexed<string>>, k: nat) {
    && k <= |arrivals| && Cancelled(policy, n, arrivals[..k])
    && forall j :: 0 <= j < k ==> !Cancelled(policy, n, arrivals[..j])
  }

  lemma CancelledFails(policy: FailurePolicy, outcomes: seq<Outcome>, arrivals: seq<Indexed<string>>, k: nat)
    requires StageFits(policy, |outcomes|) && Arrive(policy, outcomes, arrivals)
    requires FirstCancelled(policy, |outcomes|, arrivals, k)
    ensures !Succeeds(policy, outcomes)
  {
    FailuresCounted(outcomes, arrivals, k);
  }

  /** The error is that of the first result that is one. */
  predicate FirstToFail(arrivals: seq<Indexed<string>>, error: string) {
    exists k :: 0 <= k < |arrivals| && arrivals[k].item == Err(error) && forall j :: 0 <= j < k ==> arrivals[j].item.Ok?
  }

  /** The error is that of the first agent, in step order, that failed. */
  predicate FirstError(outcomes: seq<Outcome>, error: string) {
    exists i :: 0 <= i < |outcomes| && outcomes[i] == Err(error) && forall j :: 0 <= j < i ==> outcomes[j].Ok?
  }

  /** The first loop of runParallelStage: takes every result, and cancels the rest at the first failure the policy does not bear. */
  method TakeResults(policy: FailurePolicy, n: nat, arrivals: seq<Indexed<string>>)
    returns (collected: seq<Indexed<string>>, stageErr: Option<string>, ghost at: nat)
    ensures collected == arrivals
    ensures stageErr.None? ==> forall k :: 0 <= k <= |arrivals| ==> !Cancelled(policy, n, arrivals[..k])
    ensures stageErr.Some? ==> FirstCancelled(policy, n, arrivals, at)
    ensures stageErr.Some? && policy.FailFast? ==> FirstToFail(arrivals, stageErr.value)
  {
    collected, stageErr, at := [], None, 0;
    var failures := 0;
    for k := 0 to |arrivals|
      invariant collected == arrivals[..k]
      invariant stageErr.None? ==> failures == FailuresIn(arrivals[..k])
      invariant stageErr.None? ==> forall j :: 0 <= j <= k ==> !Cancelled(policy, n, arrivals[..j])
      invariant stageErr.Some? ==> FirstCancelled(policy, n, arrivals, at)
      invariant policy.FailFast? && stageErr.None? ==> forall j :: 0 <= j < k ==> arrivals[j].item.Ok?
      invariant policy.FailFast? && stageErr.Some? ==> FirstToFail(arrivals, stageErr.value)
    {
      var a := arrivals[k];
      assert arrivals[..k + 1][..k] == arrivals[..k];
      collected := collected + [a];
      if a.item.Ok? || stageErr.Some? {
        continue;
      }
      failures := failures + 1;
      if policy.FailFast? {
        stageErr, at := Some(a.item.error), k + 1;
      } else if policy.Quorum? && failures > n - policy.needed {
        stageErr, at := Some("fewer than the quorum can succeed"), k + 1;
      }
    }
  }

  /**
   * runParallelStage, from the first result on: whatever the order of arrival, it fails
   * exactly when its policy does not bear the agents' failures, and joins the
   * successes in step order.
   */
  method RunParallelStage(names: seq<string>, policy: FailurePolicy, arrivals: seq<Indexed<string>>, ghost outcomes: seq<Outcome>)
    returns (r: Outcome)
    requires |names| == |outcomes| && StageFits(policy, |names|) && Arrive(policy, outcomes, arrivals)
    ensures r.Ok? <==> Succeeds(policy, outcomes)
    ensures r.Ok? ==> r.value == Join(Parts(names, outcomes, 0)) && ListsSuccesses(names, outcomes, r.value)
    ensures policy.FailFast? || policy.WaitAll? ==> (r.Ok? <==> !AnyErr(outcomes))
    ensures policy.BestEffort? ==> (r.Ok? <==> AnyOk(outcomes))
    ensures policy.Quorum? ==> (r.Ok? <==> |OkSet(outcomes)| >= policy.needed)
    ensures r.Err? && policy.FailFast? ==> FirstToFail(arrivals, r.error)
    ensures r.Err? && (policy.WaitAll? || policy.BestEffort?) ==> FirstError(outcomes, r.error)
  {
    JoinedPartsList(names, outcomes);
    NoneFailed(outcomes);
    AllFailed(outcomes);
    OkOrFailed(outcomes);
    var collected, stageErr, at := TakeResults(policy, |names|, arrivals);
    if stageErr.Some? {
      CancelledFails(policy, outcomes, arrivals, at);
      return Err(stageErr.value);
    }
    FailuresCounted(outcomes, arrivals, |arrivals|);
    assert arrivals[..|arrivals|] == arrivals;
    SortRestoresOrder(collected, |names|);
    collected := SortByIdx(collected);
    r := JoinOutcomes(names, policy, collected, outcomes);
  }

  /** The second loop of runParallelStage: the successes in step order, and the first error. */
  method Gather(names: seq<string>, collected: seq<Indexed<string>>, ghost outcomes: seq<Outcome>)
    returns (parts: seq<string>, firstErr: Option<string>)
    requires |names| == |outcomes| == |collected|
    requires forall k :: 0 <= k < |collected| ==> collected[k] == Indexed(k, outcomes[k])
    ensures firstErr.Some? <==> AnyErr(outcomes)
    ensures firstErr.Some? ==> FirstError(outcomes, firstErr.value)
    ensures parts != [] <==> AnyOk(outcomes)
    ensures parts == Parts(names, outcomes, 0)
  {
    parts, firstErr := [], None;
    for k := 0 to |collected|
      invariant firstErr.Some? <==> exists i :: 0 <= i < k && outcomes[i].Err?
      invariant firstErr.Some? ==> FirstError(outcomes, firstErr.value)
      invariant parts + Parts(names, outcomes, k) == Parts(names, outcomes, 0)
    {
      var c := collected[k];
      if c.item.Err? {
        firstErr := if firstErr.Some? then firstErr else Some(c.item.error);
        continue;
      }
      ghost var before := parts;
      var part := names[c.idx] + "=" + c.item.value;
      parts := parts + [part];
      assert Parts(names, outcomes, k) == [part] + Parts(names, outcomes, k + 1);
      Assoc(before, [part], Parts(names, outcomes, k + 1));
    }
    Unit(parts);
    PartsOfSuccesses(names, outcomes, 0);
  }

  /** The end of runParallelStage: the joined successes; an error when there are none, or when all agents had to succeed. */
  method JoinOutcomes(names: seq<string>, policy: FailurePolicy, collected: seq<Indexed<string>>, ghost outcomes: seq<Outcome>)
    returns (r: Outcome)
    requires |names| == |outcomes| == |collected| && StageFits(policy, |names|)
    requires forall k :: 0 <= k < |collected| ==> collected[k] == Indexed(k, outcomes[k])
    requires |FailedSet(outcomes)| > 0 ==> !Decides(policy, |names|, |FailedSet(outcomes)|)
    ensures r.Ok? <==> Succeeds(policy, outcomes)
    ensures r.Ok? ==> r.value == Join(Parts(names, outcomes, 0))
    ensures r.Err? ==> FirstError(outcomes, r.error)
  {
    var parts, firstErr := Gather(names, collected, outcomes);
    Verdict(policy, outcomes);
    if policy.WaitAll? && firstErr.Some? {
      return Err(firstErr.value);
    }
    if |parts| == 0 {
      return Err(firstErr.value);
    }
    return Ok(Join(parts));
  }

  predicate AnyErr(outcomes: seq<Outcome>) {
    exists i :: 0 <= i < |outcomes| && outcomes[i].Err?
  }

  predicate AnyOk(outcomes: seq<Outcome>) {
    exists i :: 0 <= i < |outcomes| && outcomes[i].Ok?
  }

  lemma NoneFailed(outcomes: seq<Outcome>)
    ensures |FailedSet(outcomes)| == 0 <==> !AnyErr(outcomes)
  {
    assert !AnyErr(outcomes) ==> FailedSet(outcomes) == {};
    assert forall i :: 0 <= i < |outcomes| ==> (outcomes[i].Err? <==> i in FailedSet(outcomes));
  }

  function OkSet(outcomes: seq<Outcome>): set<nat> {
    set i: nat | i < |outcomes| && outcomes[i].Ok?
  }

  lemma OkOrFailed(outcomes: seq<Outcome>)
    ensures |OkSet(outcomes)| + |FailedSet(outcomes)| == |outcomes|
  {
    assert OkSet(outcomes) + FailedSet(outcomes) == Below(|outcomes|) && OkSet(outcomes) !! FailedSet(outcomes);
  }

  lemma AllFailed(outcomes: seq<Outcome>)
    ensures |FailedSet(outcomes)| <= |outcomes|
    ensures |FailedSet(outcomes)| == |outcomes| <==> !AnyOk(outcomes)
  {
    var all := Below(|outcomes|);
    SubsetSize(FailedSet(outcomes), all);
    assert !AnyOk(outcomes) ==> FailedSet(outcomes) == all;
    assert forall i :: 0 <= i < |outcomes| ==> (outcomes[i].Err? <==> i in FailedSet(outcomes));
  }

  /** A stage that no failure has ended succeeds if some agent did, and all did where all must. */
  lemma Verdict(policy: FailurePolicy, outcomes: seq<Outcome>)
    requires StageFits(policy, |outcomes|)
    requires |FailedSet(outcomes)| > 0 ==> !Decides(policy, |outcomes|, |FailedSet(outcomes)|)
    ensures Succeeds(policy, outcomes) <==> AnyOk(outcomes) && !(policy.WaitAll? && AnyErr(outcomes))
    ensures AnyErr(outcomes) || AnyOk(outcomes)
  {
    NoneFailed(outcomes);
    AllFailed(outcomes);
  }
}
