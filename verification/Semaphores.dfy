/**
 * Keyed semaphores that are made on first use and forgotten when idle, under any
 * interleaving of acquisitions, ended contexts and give-backs.
 */
module Semaphores {
  /** A buffered channel of size cap with `held` elements, and how many acquisitions use it. */
  datatype Sem = Sem(cap: nat, held: nat, users: int)

  /** The map from keys to semaphores, which are numbered in the order they were made. */
  datatype Pool = Pool(slots: map<string, nat>, sems: seq<Sem>)

  predicate Resolves(p: Pool) {
    forall key :: key in p.slots ==> p.slots[key] < |p.sems|
  }

  /** The locked section of Acquire: the key's semaphore, made if there is none, has one more user. */
  function Joined(p: Pool, key: string, limit: nat): Pool
    requires Resolves(p)
  {
    if key in p.slots then
      var i := p.slots[key];
      p.(sems := p.sems[i := p.sems[i].(users := p.sems[i].users + 1)])
    else
      Pool(p.slots[key := |p.sems|], p.sems + [Sem(limit, 0, 1)])
  }

  /** A send to, or a receive from, the semaphore's channel. */
  function Moved(p: Pool, i: nat, held: nat): Pool
    requires i < |p.sems|
  {
    p.(sems := p.sems[i := p.sems[i].(held := held)])
  }

  /** leave: the last user of a semaphore takes its key out of the map. */
  function Left(p: Pool, key: string, i: nat): Pool
    requires i < |p.sems|
  {
    var sem := p.sems[i].(users := p.sems[i].users - 1);
    Pool(if sem.users == 0 then p.slots - {key} else p.slots, p.sems[i := sem])
  }

  /** The shared object; each method is one atomic section. */
  class Semaphores {
    var slots: map<string, nat>
    var sems: seq<Sem>

    function State(): Pool
      reads this
    {
      Pool(slots, sems)
    }

    constructor ()
      ensures State() == Pool(map[], [])
    {
      slots, sems := map[], [];
    }

    method Join(key: string, limit: nat) returns (sem: nat)
      requires Resolves(State())
      modifies this
      ensures State() == Joined(old(State()), key, limit) && key in slots && sem == slots[key]
    {
      if key !in slots {
        sems := sems + [Sem(limit, 0, 0)];
        slots := slots[key := |sems| - 1];
      }
      sem := slots[key];
      sems := sems[sem := sems[sem].(users := sems[sem].users + 1)];
    }

    /** The select of Acquire, when there is room: the step Take. */
    method Send(sem: nat)
      requires sem < |sems| && sems[sem].held < sems[sem].cap
      modifies this
      ensures State() == Moved(old(State()), sem, old(sems[sem].held) + 1)
    {
      sems := sems[sem := sems[sem].(held := sems[sem].held + 1)];
    }

    /** The first half of the release func, which would block on an empty channel: the step GiveBack. */
    method Receive(sem: nat)
      requires sem < |sems| && sems[sem].held > 0
      modifies this
      ensures State() == Moved(old(State()), sem, old(sems[sem].held) - 1)
    {
      sems := sems[sem := sems[sem].(held := sems[sem].held - 1)];
    }

    method Leave(key: string, sem: nat)
      requires sem < |sems|
      modifies this
      ensures State() == Left(old(State()), key, sem)
    {
      sems := sems[sem := sems[sem].(users := sems[sem].users - 1)];
      if sems[sem].users == 0 {
        slots := slots - {key};
      }
    }

    method Keys() returns (n: nat)
      ensures n == |State().slots|
    {
      n := |slots|;
    }
  }

  // ---- Any interleaving of calls ----

  /** How far one call of Acquire, and of the func it returned, has come. */
  datatype Call =
    | Waiting(key: string, sem: nat)
    | Holding(key: string, sem: nat)
    | Leaving(key: string, sem: nat)
    | Unlimited
    | Done

  datatype System = System(pool: Pool, calls: seq<Call>)

  datatype Step =
    | Acquire(key: string, limit: int)
    | Take(c: nat)
    | CtxEnds(c: nat)
    | GiveBack(c: nat)
    | Leave(c: nat)

  predicate Uses(call: Call) {
    call.Waiting? || call.Holding? || call.Leaving?
  }

  predicate Enabled(s: System, step: Step) {
    && Resolves(s.pool)
    && match step
       case Acquire(_, _) => true
       case Take(c) =>
         c < |s.calls| && s.calls[c].Waiting? && s.calls[c].sem < |s.pool.sems|
         && s.pool.sems[s.calls[c].sem].held < s.pool.sems[s.calls[c].sem].cap
       case CtxEnds(c) => c < |s.calls| && s.calls[c].Waiting?
       case GiveBack(c) =>
         c < |s.calls| && (s.calls[c].Unlimited? ||
           (s.calls[c].Holding? && s.calls[c].sem < |s.pool.sems| && s.pool.sems[s.calls[c].sem].held > 0))
       case Leave(c) => c < |s.calls| && s.calls[c].Leaving? && s.calls[c].sem < |s.pool.sems|
  }

  function Apply(s: System, step: Step): System
    requires Enabled(s, step)
  {
    match step
    case Acquire(key, limit) =>
      if limit <= 0 then s.(calls := s.calls + [Unlimited])
      else
        var p := Joined(s.pool, key, limit);
        System(p, s.calls + [Waiting(key, p.slots[key])])
    case Take(c) =>
      var i := s.calls[c].sem;
      System(Moved(s.pool, i, s.pool.sems[i].held + 1), s.calls[c := Holding(s.calls[c].key, i)])
    case CtxEnds(c) => s.(calls := s.calls[c := Leaving(s.calls[c].key, s.calls[c].sem)])
    case GiveBack(c) =>
      if s.calls[c].Unlimited? then s.(calls := s.calls[c := Done])
      else
        var i := s.calls[c].sem;
        System(Moved(s.pool, i, s.pool.sems[i].held - 1), s.calls[c := Leaving(s.calls[c].key, i)])
    case Leave(c) => System(Left(s.pool, s.calls[c].key, s.calls[c].sem), s.calls[c := Done])
  }

  function Init(): System {
    System(Pool(map[], []), [])
  }

  predicate IsRun(s: System, steps: seq<Step>)
    decreases |steps|
  {
    steps == [] || (Enabled(s, steps[0]) && IsRun(Apply(s, steps[0]), steps[1..]))
  }

  function After(s: System, steps: seq<Step>): System
    requires IsRun(s, steps)
    decreases |steps|
  {
    if steps == [] then s else After(Apply(s, steps[0]), steps[1..])
  }

  // ---- The invariant ----

  /** The calls that wait for, hold or are leaving semaphore i. */
  function Users(calls: seq<Call>, i: nat): set<nat> {
    set c: nat | c < |calls| && Uses(calls[c]) && calls[c].sem == i
  }

  function Holders(calls: seq<Call>, i: nat): set<nat> {
    set c: nat | c < |calls| && calls[c].Holding? && calls[c].sem == i
  }

  /** Every call still under way uses the semaphore that its key now maps to. */
  predicate Shared(s: System) {
    forall c :: 0 <= c < |s.calls| && Uses(s.calls[c]) ==>
      s.calls[c].key in s.pool.slots && s.pool.slots[s.calls[c].key] == s.calls[c].sem
  }

  predicate OwnSems(p: Pool) {
    forall k1, k2 :: k1 in p.slots && k2 in p.slots && p.slots[k1] == p.slots[k2] ==> k1 == k2
  }

  /** A semaphore in the map counts its users and its holders, and has room for all of them. */
  predicate Exact(s: System, i: nat) {
    && i < |s.pool.sems|
    && s.pool.sems[i].users == |Users(s.calls, i)| > 0
    && s.pool.sems[i].held == |Holders(s.calls, i)| <= s.pool.sems[i].cap
    && s.pool.sems[i].cap > 0
  }

  predicate Inv(s: System) {
    && Shared(s)
    && OwnSems(s.pool)
    && forall key :: key in s.pool.slots ==> Exact(s, s.pool.slots[key])
  }

  lemma Toggled(s: set<nat>, t: set<nat>, c: nat)
    requires t - {c} == s - {c}
    ensures |t| == |s| + (if c in t then 1 else 0) - (if c in s then 1 else 0)
  {
    assert c in t ==> t == (t - {c}) + {c};
    assert c in s ==> s == (s - {c}) + {c};
    assert c !in t ==> t == t - {c};
    assert c !in s ==> s == s - {c};
  }

  /** One call changes: it alone may enter or leave the users and holders of a semaphore. */
  lemma CallChanges(calls: seq<Call>, c: nat, call: Call, i: nat)
    requires c < |calls|
    ensures |Users(calls[c := call], i)| == |Users(calls, i)|
              + (if Uses(call) && call.sem == i then 1 else 0) - (if Uses(calls[c]) && calls[c].sem == i then 1 else 0)
    ensures |Holders(calls[c := call], i)| == |Holders(calls, i)|
              + (if call.Holding? && call.sem == i then 1 else 0) - (if calls[c].Holding? && calls[c].sem == i then 1 else 0)
  {
    Toggled(Users(calls, i), Users(calls[c := call], i), c);
    Toggled(Holders(calls, i), Holders(calls[c := call], i), c);
  }

  lemma CallStarts(calls: seq<Call>, call: Call, i: nat)
    requires !call.Holding?
    ensures |Users(calls + [call], i)| == |Users(calls, i)| + if Uses(call) && call.sem == i then 1 else 0
    ensures Holders(calls + [call], i) == Holders(calls, i)
  {
    var us := Users(calls, i);
    assert Users(calls + [call], i) == if Uses(call) && call.sem == i then us + {|calls|} else us;
  }

  lemma AcquireKeeps(s: System, key: string, limit: int)
    requires Inv(s) && Resolves(s.pool)
    ensures Inv(Apply(s, Acquire(key, limit)))
  {
    var t := Apply(s, Acquire(key, limit));
    var call := t.calls[|s.calls|];
    if limit > 0 && key !in s.pool.slots {
      assert Users(s.calls, |s.pool.sems|) == {} && Holders(s.calls, |s.pool.sems|) == {} by {
        assert forall c :: 0 <= c < |s.calls| && Uses(s.calls[c]) ==> s.calls[c].sem < |s.pool.sems|;
      }
    }
    forall k | k in t.pool.slots ensures Exact(t, t.pool.slots[k]) {
      CallStarts(s.calls, call, t.pool.slots[k]);
    }
  }

  lemma MoveKeeps(s: System, step: Step)
    requires Inv(s) && Enabled(s, step) && (step.Take? || step.CtxEnds? || step.GiveBack?)
    ensures Inv(Apply(s, step))
  {
    var t := Apply(s, step);
    forall k | k in t.pool.slots ensures Exact(t, t.pool.slots[k]) {
      CallChanges(s.calls, step.c, t.calls[step.c], t.pool.slots[k]);
    }
  }

  lemma LeaveKeeps(s: System, c: nat)
    requires Inv(s) && Enabled(s, Leave(c))
    ensures Inv(Apply(s, Leave(c)))
  {
    var t := Apply(s, Leave(c));
    var key := s.calls[c].key;
    forall k | k in t.pool.slots ensures Exact(t, t.pool.slots[k]) {
      CallChanges(s.calls, c, Done, t.pool.slots[k]);
    }
    if key !in t.pool.slots {
      CallChanges(s.calls, c, Done, s.calls[c].sem);
      assert Users(t.calls, s.calls[c].sem) == {};
      forall d | 0 <= d < |t.calls| && Uses(t.calls[d]) ensures t.calls[d].key != key {
        assert d !in Users(t.calls, s.calls[c].sem);
      }
    }
  }

  lemma StepKeeps(s: System, step: Step)
    requires Inv(s) && Enabled(s, step)
    ensures Inv(Apply(s, step)) && Resolves(Apply(s, step).pool)
  {
    match step
    case Acquire(key, limit) => AcquireKeeps(s, key, limit);
    case Leave(c) => LeaveKeeps(s, c);
    case _ => MoveKeeps(s, step);
  }

  lemma {:induction false} RunKeeps(s: System, steps: seq<Step>)
    requires Inv(s) && IsRun(s, steps)
    ensures Inv(After(s, steps))
    decreases |steps|
  {
    if steps != [] {
      StepKeeps(s, steps[0]);
      RunKeeps(Apply(s, steps[0]), steps[1..]);
    }
  }

  // ---- What it means for the callers ----

  predicate KeyUsed(s: System, key: string) {
    exists c :: 0 <= c < |s.calls| && Uses(s.calls[c]) && s.calls[c].key == key
  }

  function HoldersOf(s: System, key: string): set<nat> {
    set c: nat | c < |s.calls| && s.calls[c].Holding? && s.calls[c].key == key
  }

  lemma MapHoldsUsedKeys(s: System, key: string)
    requires Inv(s)
    ensures key in s.pool.slots <==> KeyUsed(s, key)
  {
    if key in s.pool.slots {
      assert Exact(s, s.pool.slots[key]);
      var c :| c in Users(s.calls, s.pool.slots[key]);
      assert s.calls[c].key == key;
    }
  }

  /** The call that finds a key unused sets its limit. */
  ghost function NextLimit(s: System, step: Step, key: string, limit: int): int {
    if step.Acquire? && step.key == key && step.limit > 0 && !KeyUsed(s, key) then step.limit else limit
  }

  /** The limit asked for by the last call in the run that found the key unused. */
  ghost function LimitInForce(s: System, steps: seq<Step>, key: string, limit: int): int
    requires IsRun(s, steps)
    decreases |steps|
  {
    if steps == [] then limit else LimitInForce(Apply(s, steps[0]), steps[1..], key, NextLimit(s, steps[0], key, limit))
  }

  predicate CapIs(p: Pool, key: string, limit: int) {
    key in p.slots ==> p.slots[key] < |p.sems| && p.sems[p.slots[key]].cap == limit
  }

  lemma CapIsNextLimit(s: System, step: Step, key: string, limit: int)
    requires Inv(s) && Enabled(s, step) && CapIs(s.pool, key, limit)
    ensures CapIs(Apply(s, step).pool, key, NextLimit(s, step, key, limit))
  {
    MapHoldsUsedKeys(s, key);
  }

  lemma {:induction false} CapIsLimitInForce(s: System, steps: seq<Step>, key: string, limit: int)
    requires Inv(s) && IsRun(s, steps) && CapIs(s.pool, key, limit)
    ensures CapIs(After(s, steps).pool, key, LimitInForce(s, steps, key, limit))
    decreases |steps|
  {
    if steps != [] {
      StepKeeps(s, steps[0]);
      CapIsNextLimit(s, steps[0], key, limit);
      CapIsLimitInForce(Apply(s, steps[0]), steps[1..], key, NextLimit(s, steps[0], key, limit));
    }
  }

  // ---- What was asked for ----

  datatype Ask = Ask(key: string, limit: int)

  /** The calls of Acquire that a run makes, in order. */
  function Asks(steps: seq<Step>): seq<Ask> {
    if steps == [] then []
    else (if steps[0].Acquire? then [Ask(steps[0].key, steps[0].limit)] else []) + Asks(steps[1..])
  }

  /** The call has returned from Acquire with a slot, or without needing one, and has not given back yet. */
  predicate Proceeds(call: Call) {
    !call.Waiting? && !call.Leaving? && !call.Done?
  }

  predicate CallFits(call: Call, ask: Ask) {
    && (Uses(call) ==> call.key == ask.key && ask.limit > 0)
    && (call.Unlimited? ==> ask.limit <= 0)
  }

  /** Each call is where it may be, given the key and the limit it asked for. */
  predicate CallsFit(s: System, asks: seq<Ask>) {
    |s.calls| == |asks| && forall c :: 0 <= c < |asks| ==> CallFits(s.calls[c], asks[c])
  }

  lemma {:induction false} RunKeepsCalls(s: System, steps: seq<Step>, asks: seq<Ask>)
    requires IsRun(s, steps) && CallsFit(s, asks)
    ensures CallsFit(After(s, steps), asks + Asks(steps))
    decreases |steps|
  {
    if steps == [] {
      assert asks + [] == asks;
    } else {
      var more := if steps[0].Acquire? then [Ask(steps[0].key, steps[0].limit)] else [];
      assert CallsFit(Apply(s, steps[0]), asks + more);
      RunKeepsCalls(Apply(s, steps[0]), steps[1..], asks + more);
      assert asks + more + Asks(steps[1..]) == asks + (more + Asks(steps[1..]));
    }
  }

  /** The calls that asked for this key with a positive limit, and proceed. */
  function Limited(s: System, asks: seq<Ask>, key: string): set<nat> {
    set c: nat | c < |s.calls| && c < |asks| && Proceeds(s.calls[c]) && asks[c].key == key && asks[c].limit > 0
  }

  lemma LimitedAreHolders(s: System, asks: seq<Ask>, key: string)
    requires Inv(s) && CallsFit(s, asks)
    ensures forall c :: c in Limited(s, asks, key) ==> s.calls[c].Holding? && key in s.pool.slots && s.calls[c].sem == s.pool.slots[key]
    ensures key in s.pool.slots ==> Limited(s, asks, key) == Holders(s.calls, s.pool.slots[key])
    ensures key !in s.pool.slots ==> Limited(s, asks, key) == {}
  {
    forall c | c in Limited(s, asks, key)
      ensures s.calls[c].Holding? && key in s.pool.slots && s.calls[c].sem == s.pool.slots[key]
    {
      assert CallFits(s.calls[c], asks[c]);
    }
    if key in s.pool.slots {
      forall c | c in Holders(s.calls, s.pool.slots[key]) ensures c in Limited(s, asks, key) {
        assert CallFits(s.calls[c], asks[c]);
      }
    }
  }

  /**
   * In every reachable state the map holds exactly the keys that some call uses; all
   * those calls share one semaphore; and however the calls that asked for the key with a
   * positive limit have come to proceed, each of them holds that semaphore, and they are
   * within the limit asked for by the call that made it, however often the key was forgotten
   * and made again before and whatever later callers ask for.
   */
  lemma HoldersWithinLimit(steps: seq<Step>, key: string)
    requires IsRun(Init(), steps)
    ensures var s, asks := After(Init(), steps), Asks(steps);
            && (key in s.pool.slots <==> KeyUsed(s, key))
            && |s.calls| == |asks|
            && (Limited(s, asks, key) == {} || |Limited(s, asks, key)| <= LimitInForce(Init(), steps, key, 0))
            && (forall c :: c in Limited(s, asks, key) ==> s.calls[c].Holding? && key in s.pool.slots && s.calls[c].sem == s.pool.slots[key])
            && forall c :: 0 <= c < |s.calls| && Uses(s.calls[c]) && s.calls[c].key == key ==>
                 key in s.pool.slots && s.calls[c].sem == s.pool.slots[key] && asks[c].key == key
  {
    RunKeeps(Init(), steps);
    RunKeepsCalls(Init(), steps, []);
    assert [] + Asks(steps) == Asks(steps);
    var s := After(Init(), steps);
    MapHoldsUsedKeys(s, key);
    CapIsLimitInForce(Init(), steps, key, 0);
    LimitedAreHolders(s, Asks(steps), key);
    if key in s.pool.slots {
      assert Exact(s, s.pool.slots[key]);
    }
    forall c | 0 <= c < |s.calls| && Uses(s.calls[c]) && s.calls[c].key == key
      ensures key in s.pool.slots && s.calls[c].sem == s.pool.slots[key] && Asks(steps)[c].key == key
    {
      assert CallFits(s.calls[c], Asks(steps)[c]);
    }
  }

  /** A waiting call can go on exactly when its key has fewer holders than the limit; giving back never blocks. */
  lemma WaitsOnlyForRoom(steps: seq<Step>, c: nat)
    requires IsRun(Init(), steps) && c < |After(Init(), steps).calls|
    ensures var s := After(Init(), steps);
            var call := s.calls[c];
            && (call.Waiting? ==> call.sem < |s.pool.sems| && (Enabled(s, Take(c)) <==> |HoldersOf(s, call.key)| < s.pool.sems[call.sem].cap))
            && (call.Holding? || call.Unlimited? ==> Enabled(s, GiveBack(c)))
            && (call.Leaving? ==> Enabled(s, Leave(c)))
  {
    RunKeeps(Init(), steps);
    var s := After(Init(), steps);
    var call := s.calls[c];
    if Uses(call) {
      assert Exact(s, call.sem);
      assert HoldersOf(s, call.key) == Holders(s.calls, call.sem);
      if call.Holding? {
        assert c in Holders(s.calls, call.sem);
      }
    }
  }

  /** When no call is under way, nothing is remembered. */
  lemma IdleForgetsAll(steps: seq<Step>)
    requires IsRun(Init(), steps)
    requires forall c :: 0 <= c < |After(Init(), steps).calls| ==> !Uses(After(Init(), steps).calls[c])
    ensures After(Init(), steps).pool.slots == map[]
  {
    var s := After(Init(), steps);
    forall key ensures key !in s.pool.slots {
      HoldersWithinLimit(steps, key);
    }
  }
}
