/**
 * Reusing the recorded outputs of a run that is resumed: what a stage counts before its
 * agents run, against what they find when they take.
 */
module TaskReuse {
  import opened Collections
  import opened Wrappers

  /** Recorded outputs by task key, oldest first. */
  type Outputs = map<string, seq<string>>

  function Left(o: Outputs, key: string): seq<string> {
    if key in o then o[key] else []
  }

  function Taken(o: Outputs, key: string): Outputs {
    if Left(o, key) == [] then o else o[key := o[key][1..]]
  }

  /** How many of these takes, one after the other, find nothing. */
  function Misses(o: Outputs, keys: seq<string>): nat {
    if keys == [] then 0
    else (if Left(o, keys[0]) == [] then 1 else 0) + Misses(Taken(o, keys[0]), keys[1..])
  }

  /** completedTasks. A run that resumes nothing has none, which is the same as no recorded outputs. */
  class CompletedTasks {
    var outputs: Outputs

    constructor (recorded: Outputs)
      ensures outputs == recorded
    {
      outputs := recorded;
    }

    method Take(key: string) returns (out: Option<string>)
      modifies this
      ensures outputs == Taken(old(outputs), key)
      ensures out == if Left(old(outputs), key) == [] then None else Some(Left(old(outputs), key)[0])
    {
      if key !in outputs || |outputs[key]| == 0 {
        return None;
      }
      out := Some(outputs[key][0]);
      outputs := outputs[key := outputs[key][1..]];
    }

    /** toRun: counts the steps that will find no output, without taking any. */
    method ToRun(keys: seq<string>) returns (n: nat)
      ensures n == Misses(outputs, keys)
    {
      n := 0;
      var used: map<string, nat> := map[];
      ghost var now := outputs;
      for i := 0 to |keys|
        invariant n + Misses(now, keys[i..]) == Misses(outputs, keys)
        invariant forall key :: Remains(outputs, used, now, key)
      {
        var key := keys[i];
        assert keys[i..][0] == key && keys[i..][1..] == keys[i + 1..];
        assert Remains(outputs, used, now, key);
        var before := if key in used then used[key] else 0;
        TakenRemains(outputs, used, now, key);
        now := Taken(now, key);
        if before < (if key in outputs then |outputs[key]| else 0) {
          used := used[key := before + 1];
          continue;
        }
        n := n + 1;
      }
    }
  }

  /** After `used` takes of a key, the outputs left for it. */
  predicate Remains(o: Outputs, used: map<string, nat>, now: Outputs, key: string) {
    var u := if key in used then used[key] else 0;
    u <= |Left(o, key)| && Left(now, key) == Left(o, key)[u..]
  }

  lemma TakenRemains(o: Outputs, used: map<string, nat>, now: Outputs, key: string)
    requires forall k :: Remains(o, used, now, k)
    ensures var u := if key in used then used[key] else 0;
            var used' := if u < |Left(o, key)| then used[key := u + 1] else used;
            forall k :: Remains(o, used', Taken(now, key), k)
  {
    var u := if key in used then used[key] else 0;
    var used' := if u < |Left(o, key)| then used[key := u + 1] else used;
    assert Remains(o, used, now, key);
    forall k ensures Remains(o, used', Taken(now, key), k) {
      assert Remains(o, used, now, k);
    }
  }

  lemma SwapTakes(o: Outputs, x: string, y: string, rest: seq<string>)
    ensures Misses(o, [x, y] + rest) == Misses(o, [y, x] + rest)
  {
    assert ([x, y] + rest)[1..] == [y] + rest && ([y] + rest)[1..] == rest;
    assert ([y, x] + rest)[1..] == [x] + rest && ([x] + rest)[1..] == rest;
    if x != y {
      assert Taken(Taken(o, x), y) == Taken(Taken(o, y), x);
    }
  }

  lemma MissesCons(o: Outputs, x: string, rest: seq<string>)
    ensures Misses(o, [x] + rest) == (if Left(o, x) == [] then 1 else 0) + Misses(Taken(o, x), rest)
  {
    assert ([x] + rest)[1..] == rest;
  }

  lemma PassOver(o: Outputs, x: string, y: string, s: seq<string>, t: seq<string>)
    requires Misses(Taken(o, y), s) == Misses(Taken(o, y), [x] + t)
    ensures Misses(o, [y] + s) == Misses(o, [x] + ([y] + t))
  {
    MissesCons(o, y, s);
    MissesCons(o, y, [x] + t);
    SwapTakes(o, x, y, t);
    assert [y, x] + t == [y] + ([x] + t) && [x, y] + t == [x] + ([y] + t);
  }

  lemma {:induction false} MoveToFront(o: Outputs, a: seq<string>, x: string, b: seq<string>)
    ensures Misses(o, a + [x] + b) == Misses(o, [x] + (a + b))
  {
    if a == [] {
      assert [] + [x] == [x] && a + b == b;
    } else {
      var y, rest := a[0], a[1..];
      MoveToFront(Taken(o, y), rest, x, b);
      PassOver(o, x, y, rest + [x] + b, rest + b);
      Regroup(a, x, b);
    }
  }

  lemma Regroup(a: seq<string>, x: string, b: seq<string>)
    requires a != []
    ensures a + [x] + b == [a[0]] + (a[1..] + [x] + b)
    ensures a + b == [a[0]] + (a[1..] + b)
  {
  }

  lemma SplitAt(keys: seq<string>, x: string) returns (a: seq<string>, b: seq<string>)
    requires x in multiset(keys)
    ensures keys == a + [x] + b && multiset(a + b) == multiset(keys) - multiset{x}
  {
    var i :| 0 <= i < |keys| && keys[i] == x;
    a, b := keys[..i], keys[i + 1..];
    assert keys == a + [x] + b;
  }

  lemma {:induction false} FewerTakesMissFewer(o: Outputs, some: seq<string>, all: seq<string>)
    requires multiset(some) <= multiset(all)
    ensures Misses(o, some) <= Misses(o, all)
    decreases |some|
  {
    if some != [] {
      var x, rest := some[0], some[1..];
      assert some == [x] + rest;
      assert x in multiset(some);
      var a, b := SplitAt(all, x);
      MoveToFront(o, a, x, b);
      MissesCons(o, x, a + b);
      MissesCons(o, x, rest);
      assert multiset(rest) == multiset(some) - multiset{x};
      FewerTakesMissFewer(Taken(o, x), rest, a + b);
    }
  }

  /** The steps of a stage find the same number of outputs in whatever order they take them. */
  lemma MissesInAnyOrder(o: Outputs, keys: seq<string>, order: seq<string>)
    requires multiset(keys) == multiset(order)
    ensures Misses(o, keys) == Misses(o, order)
  {
    FewerTakesMissFewer(o, keys, order);
    FewerTakesMissFewer(o, order, keys);
  }

  // ---- Takes of the stage among takes of others ----

  /** A take by an agent of the stage itself, or by a task that another agent delegated meanwhile. */
  datatype TakeBy = Own(key: string) | Delegated(key: string)

  function KeysOf(takes: seq<TakeBy>): seq<string> {
    if takes == [] then [] else [takes[0].key] + KeysOf(takes[1..])
  }

  function OwnKeys(takes: seq<TakeBy>): seq<string> {
    if takes == [] then []
    else (if takes[0].Own? then [takes[0].key] else []) + OwnKeys(takes[1..])
  }

  function DelegatedKeys(takes: seq<TakeBy>): seq<string> {
    if takes == [] then []
    else (if takes[0].Own? then [] else [takes[0].key]) + DelegatedKeys(takes[1..])
  }

  /** How many of the stage's own takes find nothing. */
  function OwnMisses(o: Outputs, takes: seq<TakeBy>): nat {
    if takes == [] then 0
    else (if takes[0].Own? && Left(o, takes[0].key) == [] then 1 else 0) + OwnMisses(Taken(o, takes[0].key), takes[1..])
  }

  function AfterTakes(o: Outputs, takes: seq<TakeBy>): Outputs {
    if takes == [] then o else AfterTakes(Taken(o, takes[0].key), takes[1..])
  }

  function Owns(keys: seq<string>): seq<TakeBy> {
    seq(|keys|, k requires 0 <= k < |keys| => Own(keys[k]))
  }

  function Delegations(keys: seq<string>): seq<TakeBy> {
    seq(|keys|, k requires 0 <= k < |keys| => Delegated(keys[k]))
  }

  lemma {:induction false} KeysAreOwnAndDelegated(takes: seq<TakeBy>)
    ensures multiset(KeysOf(takes)) == multiset(OwnKeys(takes)) + multiset(DelegatedKeys(takes))
  {
    if takes != [] {
      KeysAreOwnAndDelegated(takes[1..]);
    }
  }

  lemma {:induction false} OwnKeysJoin(a: seq<TakeBy>, b: seq<TakeBy>)
    ensures OwnKeys(a + b) == OwnKeys(a) + OwnKeys(b)
  {
    if a == [] {
      Unit(b);
      Unit(OwnKeys(b));
    } else {
      TailOfConcat(a, b, 1);
      OwnKeysJoin(a[1..], b);
      Assoc(if a[0].Own? then [a[0].key] else [], OwnKeys(a[1..]), OwnKeys(b));
    }
  }

  lemma {:induction false} DelegatedKeysJoin(a: seq<TakeBy>, b: seq<TakeBy>)
    ensures DelegatedKeys(a + b) == DelegatedKeys(a) + DelegatedKeys(b)
  {
    if a == [] {
      Unit(b);
      Unit(DelegatedKeys(b));
    } else {
      TailOfConcat(a, b, 1);
      DelegatedKeysJoin(a[1..], b);
      Assoc(if a[0].Own? then [] else [a[0].key], DelegatedKeys(a[1..]), DelegatedKeys(b));
    }
  }

  lemma KeysJoin(a: seq<TakeBy>, b: seq<TakeBy>)
    ensures OwnKeys(a + b) == OwnKeys(a) + OwnKeys(b) && DelegatedKeys(a + b) == DelegatedKeys(a) + DelegatedKeys(b)
  {
    OwnKeysJoin(a, b);
    DelegatedKeysJoin(a, b);
  }

  lemma {:induction false} TakesJoin(o: Outputs, a: seq<TakeBy>, b: seq<TakeBy>)
    ensures OwnMisses(o, a + b) == OwnMisses(o, a) + OwnMisses(AfterTakes(o, a), b)
    ensures AfterTakes(o, a + b) == AfterTakes(AfterTakes(o, a), b)
  {
    if a == [] {
      assert a + b == b;
    } else {
      assert (a + b)[1..] == a[1..] + b;
      TakesJoin(Taken(o, a[0].key), a[1..], b);
    }
  }

  lemma OneMoreTake(o: Outputs, takes: seq<TakeBy>, last: TakeBy)
    ensures AfterTakes(o, takes + [last]) == Taken(AfterTakes(o, takes), last.key)
    ensures OwnMisses(o, takes + [last]) ==
            OwnMisses(o, takes) + if last.Own? && Left(AfterTakes(o, takes), last.key) == [] then 1 else 0
    ensures OwnKeys(takes + [last]) == OwnKeys(takes) + if last.Own? then [last.key] else []
  {
    TakesJoin(o, takes, [last]);
    OwnKeysJoin(takes, [last]);
    var p := AfterTakes(o, takes);
    assert [last][1..] == [];
    assert OwnMisses(p, [last]) == if last.Own? && Left(p, last.key) == [] then 1 else 0;
    Unit(if last.Own? then [last.key] else []);
  }

  lemma {:induction false} OwnsAre(o: Outputs, keys: seq<string>)
    ensures OwnKeys(Owns(keys)) == keys && DelegatedKeys(Owns(keys)) == []
    ensures OwnMisses(o, Owns(keys)) == Misses(o, keys)
  {
    if keys != [] {
      assert Owns(keys)[1..] == Owns(keys[1..]);
      OwnsAre(Taken(o, keys[0]), keys[1..]);
    }
  }

  lemma {:induction false} DelegationsAre(o: Outputs, keys: seq<string>)
    ensures OwnKeys(Delegations(keys)) == [] && DelegatedKeys(Delegations(keys)) == keys
    ensures OwnMisses(o, Delegations(keys)) == 0
  {
    if keys != [] {
      assert Delegations(keys)[1..] == Delegations(keys[1..]);
      DelegationsAre(Taken(o, keys[0]), keys[1..]);
    }
  }

  lemma ConsCount(x: string, rest: seq<string>, key: string)
    ensures multiset([x] + rest)[key] == multiset(rest)[key] + if key == x then 1 else 0
    ensures key in [x] + rest <==> key == x || key in rest
  {
    assert multiset([x] + rest) == multiset{x} + multiset(rest);
  }

  /** Each take of a key leaves its outputs without the oldest one. */
  lemma {:induction false} LeftAfter(o: Outputs, takes: seq<TakeBy>, key: string)
    ensures var n := multiset(KeysOf(takes))[key];
            Left(AfterTakes(o, takes), key) == if |Left(o, key)| > n then Left(o, key)[n..] else []
  {
    if takes != [] {
      var x, rest := takes[0].key, takes[1..];
      LeftAfter(Taken(o, x), rest, key);
      ConsCount(x, KeysOf(rest), key);
      if key == x && Left(o, x) != [] {
        assert Left(Taken(o, x), x) == Left(o, x)[1..];
      }
    }
  }

  /** The takes of a key get its recorded outputs one after the other, each once, and then nothing. */
  lemma TakesGiveRecorded(o: Outputs, takes: seq<TakeBy>, key: string)
    ensures var n := multiset(KeysOf(takes))[key];
            var left := Left(AfterTakes(o, takes), key);
            if n < |Left(o, key)| then left != [] && left[0] == Left(o, key)[n] else left == []
  {
    LeftAfter(o, takes, key);
  }

  // ---- The same misses, and more ----

  lemma {:induction false} FewerOutputsMissMore(o: Outputs, p: Outputs, keys: seq<string>)
    requires forall k :: k in keys ==> |Left(p, k)| <= |Left(o, k)|
    ensures Misses(o, keys) <= Misses(p, keys)
  {
    if keys != [] {
      assert forall k :: k in keys[1..] ==> k in keys;
      FewerOutputsMissMore(Taken(o, keys[0]), Taken(p, keys[0]), keys[1..]);
    }
  }

  /** As many outputs, or enough in both. */
  predicate SameFor(o: Outputs, p: Outputs, keys: seq<string>, key: string) {
    |Left(o, key)| == |Left(p, key)| || (multiset(keys)[key] <= |Left(o, key)| && multiset(keys)[key] <= |Left(p, key)|)
  }

  lemma {:induction false} SameMisses(o: Outputs, p: Outputs, keys: seq<string>)
    requires forall key :: key in keys ==> SameFor(o, p, keys, key)
    ensures Misses(o, keys) == Misses(p, keys)
  {
    if keys != [] {
      var x, rest := keys[0], keys[1..];
      assert keys == [x] + rest;
      ConsCount(x, rest, x);
      forall key | key in rest ensures SameFor(Taken(o, x), Taken(p, x), rest, key) {
        ConsCount(x, rest, key);
        assert SameFor(o, p, keys, key);
      }
      assert SameFor(o, p, keys, x);
      SameMisses(Taken(o, x), Taken(p, x), rest);
    }
  }

  /** An output fewer for a key that has then too few is a miss more. */
  lemma {:induction false} TooFewMissMore(o: Outputs, p: Outputs, keys: seq<string>, x: string)
    requires forall k :: k in keys ==> |Left(p, k)| <= |Left(o, k)|
    requires |Left(p, x)| < |Left(o, x)| && |Left(p, x)| < multiset(keys)[x]
    ensures Misses(o, keys) < Misses(p, keys)
  {
    assert x in multiset(keys);
    var k, rest := keys[0], keys[1..];
    assert keys == [k] + rest;
    assert forall key :: key in rest ==> key in keys;
    if Left(p, k) == [] && Left(o, k) != [] {
      FewerOutputsMissMore(Taken(o, k), Taken(p, k), rest);
    } else {
      TooFewMissMore(Taken(o, k), Taken(p, k), rest, x);
    }
  }

  // ---- toRun is exact ----

  /** toRun, computed before any step runs, is never more than the stage's own takes that fail. */
  lemma {:induction false} OwnMissesAtLeast(o: Outputs, takes: seq<TakeBy>)
    ensures OwnMisses(o, takes) >= Misses(o, OwnKeys(takes))
  {
    if takes != [] {
      var x, rest := takes[0].key, takes[1..];
      OwnMissesAtLeast(Taken(o, x), rest);
      if takes[0].Own? {
        MissesCons(o, x, OwnKeys(rest));
      } else {
        assert OwnKeys(takes) == OwnKeys(rest);
        FewerOutputsMissMore(o, Taken(o, x), OwnKeys(rest));
      }
    }
  }

  /** No output is recorded for this key, or enough for all who take it. */
  predicate Enough(o: Outputs, key: string, takes: nat) {
    |Left(o, key)| == 0 || |Left(o, key)| >= takes
  }

  predicate EnoughForAll(o: Outputs, takes: seq<TakeBy>) {
    forall key :: key in OwnKeys(takes) && key in DelegatedKeys(takes) ==> Enough(o, key, multiset(KeysOf(takes))[key])
  }

  lemma EnoughForRest(o: Outputs, takes: seq<TakeBy>)
    requires takes != [] && EnoughForAll(o, takes)
    ensures EnoughForAll(Taken(o, takes[0].key), takes[1..])
  {
    var x, rest := takes[0].key, takes[1..];
    forall key | key in OwnKeys(rest) && key in DelegatedKeys(rest)
      ensures Enough(Taken(o, x), key, multiset(KeysOf(rest))[key])
    {
      ConsCount(x, KeysOf(rest), key);
      assert Enough(o, key, multiset(KeysOf(takes))[key]);
    }
  }

  lemma {:induction false} EnoughIsExact(o: Outputs, takes: seq<TakeBy>)
    requires EnoughForAll(o, takes)
    ensures OwnMisses(o, takes) == Misses(o, OwnKeys(takes))
  {
    if takes != [] {
      var x, rest := takes[0].key, takes[1..];
      EnoughForRest(o, takes);
      EnoughIsExact(Taken(o, x), rest);
      if takes[0].Own? {
        MissesCons(o, x, OwnKeys(rest));
      } else {
        DelegatedTakeOfEnough(o, takes);
      }
    }
  }

  lemma DelegatedTakeOfEnough(o: Outputs, takes: seq<TakeBy>)
    requires takes != [] && takes[0].Delegated? && EnoughForAll(o, takes)
    ensures Misses(Taken(o, takes[0].key), OwnKeys(takes[1..])) == Misses(o, OwnKeys(takes))
  {
    var x, own := takes[0].key, OwnKeys(takes);
    assert own == OwnKeys(takes[1..]);
    KeysAreOwnAndDelegated(takes);
    assert x in DelegatedKeys(takes);
    forall key | key in own ensures SameFor(Taken(o, x), o, own, key) {
      if key == x {
        assert Enough(o, x, multiset(KeysOf(takes))[x]);
        assert x in multiset(DelegatedKeys(takes));
      }
    }
    SameMisses(Taken(o, x), o, own);
  }

  /** Any order in which a stage's agents and the delegated tasks take. */
  predicate Interleaves(takes: seq<TakeBy>, keys: seq<string>, delegated: seq<string>) {
    multiset(OwnKeys(takes)) == multiset(keys) && multiset(DelegatedKeys(takes)) == multiset(delegated)
  }

  ghost predicate AlwaysExact(o: Outputs, keys: seq<string>, delegated: seq<string>) {
    forall takes: seq<TakeBy> :: Interleaves(takes, keys, delegated) ==> OwnMisses(o, takes) == Misses(o, keys)
  }

  /** Each key that delegated tasks share with the stage has no output, or enough for both. */
  predicate Suffice(o: Outputs, keys: seq<string>, delegated: seq<string>) {
    forall key :: key in keys && key in delegated ==> Enough(o, key, multiset(keys)[key] + multiset(delegated)[key])
  }

  /** The same bound when some agents of the stage have not taken, or never do. */
  lemma SufficientForSome(o: Outputs, keys: seq<string>, takes: seq<TakeBy>)
    requires multiset(OwnKeys(takes)) <= multiset(keys) && Suffice(o, keys, DelegatedKeys(takes))
    ensures OwnMisses(o, takes) == Misses(o, OwnKeys(takes)) <= Misses(o, keys)
  {
    var own, delegated := OwnKeys(takes), DelegatedKeys(takes);
    KeysAreOwnAndDelegated(takes);
    forall key | key in own && key in delegated ensures Enough(o, key, multiset(KeysOf(takes))[key]) {
      assert key in multiset(own);
      assert key in multiset(keys);
      assert Enough(o, key, multiset(keys)[key] + multiset(delegated)[key]);
    }
    EnoughIsExact(o, takes);
    FewerTakesMissFewer(o, own, keys);
  }

  /** The delegated tasks come first, and a step of the stage finds its output gone. */
  lemma DelegatedFirst(o: Outputs, keys: seq<string>, delegated: seq<string>, x: string)
    requires x in keys && x in delegated && !Enough(o, x, multiset(keys)[x] + multiset(delegated)[x])
    ensures Interleaves(Delegations(delegated) + Owns(keys), keys, delegated)
    ensures OwnMisses(o, Delegations(delegated) + Owns(keys)) > Misses(o, keys)
  {
    var d := Delegations(delegated);
    var p := AfterTakes(o, d);
    DelegationsAre(o, delegated);
    OwnsAre(p, keys);
    KeysJoin(d, Owns(keys));
    TakesJoin(o, d, Owns(keys));
    KeysAreOwnAndDelegated(d);
    assert multiset(KeysOf(d)) == multiset(delegated);
    forall k | k in keys ensures |Left(p, k)| <= |Left(o, k)| {
      LeftAfter(o, d, k);
    }
    LeftAfter(o, d, x);
    assert x in multiset(keys) && x in multiset(delegated);
    TooFewMissMore(o, p, keys, x);
  }

  /**
   * toRun is the number of the stage's own takes that fail, in whatever order they and the
   * delegated takes come, exactly if each key they share has no recorded output, or at least
   * one for every take of it.
   */
  lemma ToRunIsExact(o: Outputs, keys: seq<string>, delegated: seq<string>)
    ensures AlwaysExact(o, keys, delegated) <==> Suffice(o, keys, delegated)
  {
    if Suffice(o, keys, delegated) {
      forall takes: seq<TakeBy> | Interleaves(takes, keys, delegated) ensures OwnMisses(o, takes) == Misses(o, keys) {
        SufficeMeans(o, keys, delegated, DelegatedKeys(takes));
        SufficientForSome(o, keys, takes);
        MissesInAnyOrder(o, keys, OwnKeys(takes));
      }
    } else {
      var x :| x in keys && x in delegated && !Enough(o, x, multiset(keys)[x] + multiset(delegated)[x]);
      DelegatedFirst(o, keys, delegated, x);
    }
  }

  lemma SufficeMeans(o: Outputs, keys: seq<string>, delegated: seq<string>, order: seq<string>)
    requires Suffice(o, keys, delegated) && multiset(order) == multiset(delegated)
    ensures Suffice(o, keys, order)
  {
    forall key | key in keys && key in order ensures Enough(o, key, multiset(keys)[key] + multiset(order)[key]) {
      assert key in multiset(order);
      assert key in multiset(delegated);
    }
  }

  /** In no order do fewer of the stage's own takes fail than toRun counts. */
  lemma ToRunIsNeverMore(o: Outputs, keys: seq<string>, takes: seq<TakeBy>)
    requires multiset(OwnKeys(takes)) == multiset(keys)
    ensures Misses(o, keys) <= OwnMisses(o, takes)
  {
    OwnMissesAtLeast(o, takes);
    MissesInAnyOrder(o, keys, OwnKeys(takes));
  }

  // ---- Only agents that run delegate ----

  /**
   * An agent whose output is reused never runs: a delegated task comes after a take of the
   * stage that found nothing.
   */
  predicate Caused(o: Outputs, takes: seq<TakeBy>) {
    takes == [] || (takes[0].Own? && (Left(o, takes[0].key) == [] || Caused(Taken(o, takes[0].key), takes[1..])))
  }

  ghost predicate ExactWhenCaused(o: Outputs, keys: seq<string>, delegated: seq<string>) {
    forall takes: seq<TakeBy> :: Interleaves(takes, keys, delegated) && Caused(o, takes) ==> OwnMisses(o, takes) == Misses(o, keys)
  }

  /** Some step with another key has to run, whatever delegated tasks take. */
  predicate OtherRuns(o: Outputs, keys: seq<string>, x: string) {
    exists y :: y in keys && y != x && multiset(keys)[y] > |Left(o, y)|
  }

  predicate SufficeWhenCaused(o: Outputs, keys: seq<string>, delegated: seq<string>) {
    forall key :: key in keys && key in delegated ==>
      Enough(o, key, multiset(keys)[key] + multiset(delegated)[key]) || !OtherRuns(o, keys, key)
  }

  predicate EnoughOrIdle(o: Outputs, takes: seq<TakeBy>, key: string) {
    Enough(o, key, multiset(KeysOf(takes))[key]) || !OtherRuns(o, OwnKeys(takes), key)
  }

  predicate EnoughOrAllIdle(o: Outputs, takes: seq<TakeBy>) {
    forall key :: key in OwnKeys(takes) && key in DelegatedKeys(takes) ==> EnoughOrIdle(o, takes, key)
  }

  lemma IdleAfterReuse(o: Outputs, x: string, own: seq<string>, key: string)
    requires Left(o, x) != [] && OtherRuns(Taken(o, x), own, key)
    ensures OtherRuns(o, [x] + own, key)
  {
    var y :| y in own && y != key && multiset(own)[y] > |Left(Taken(o, x), y)|;
    ConsCount(x, own, y);
    assert y in [x] + own && multiset([x] + own)[y] > |Left(o, y)|;
  }

  lemma AfterReuse(o: Outputs, takes: seq<TakeBy>)
    requires takes != [] && takes[0].Own? && Left(o, takes[0].key) != [] && EnoughOrAllIdle(o, takes)
    ensures EnoughOrAllIdle(Taken(o, takes[0].key), takes[1..])
  {
    var x, rest := takes[0].key, takes[1..];
    forall key | key in OwnKeys(rest) && key in DelegatedKeys(rest) ensures EnoughOrIdle(Taken(o, x), rest, key) {
      ConsCount(x, OwnKeys(rest), key);
      ConsCount(x, KeysOf(rest), key);
      assert EnoughOrIdle(o, takes, key);
      if OtherRuns(Taken(o, x), OwnKeys(rest), key) {
        IdleAfterReuse(o, x, OwnKeys(rest), key);
      }
    }
  }

  lemma AfterMiss(o: Outputs, takes: seq<TakeBy>)
    requires takes != [] && takes[0].Own? && Left(o, takes[0].key) == [] && EnoughOrAllIdle(o, takes)
    ensures EnoughForAll(o, takes[1..])
  {
    var x, rest := takes[0].key, takes[1..];
    ConsCount(x, OwnKeys(rest), x);
    forall key | key in OwnKeys(rest) && key in DelegatedKeys(rest) ensures Enough(o, key, multiset(KeysOf(rest))[key]) {
      ConsCount(x, OwnKeys(rest), key);
      ConsCount(x, KeysOf(rest), key);
      assert EnoughOrIdle(o, takes, key);
      if key != x {
        assert x in OwnKeys(takes) && multiset(OwnKeys(takes))[x] > |Left(o, x)|;
      }
    }
  }

  lemma {:induction false} CausedIsExact(o: Outputs, takes: seq<TakeBy>)
    requires Caused(o, takes) && EnoughOrAllIdle(o, takes)
    ensures OwnMisses(o, takes) == Misses(o, OwnKeys(takes))
  {
    if takes != [] {
      var x, rest := takes[0].key, takes[1..];
      MissesCons(o, x, OwnKeys(rest));
      if Left(o, x) == [] {
        AfterMiss(o, takes);
        EnoughIsExact(o, rest);
      } else {
        AfterReuse(o, takes);
        CausedIsExact(Taken(o, x), rest);
      }
    }
  }

  function Times(y: string, n: nat): seq<string> {
    if n == 0 then [] else [y] + Times(y, n - 1)
  }

  function Without(keys: seq<string>, y: string): seq<string> {
    if keys == [] then [] else (if keys[0] == y then [] else [keys[0]]) + Without(keys[1..], y)
  }

  lemma {:induction false} TimesCount(y: string, n: nat, z: string)
    ensures multiset(Times(y, n))[z] == if z == y then n else 0
  {
    if n > 0 {
      TimesCount(y, n - 1, z);
    }
  }

  lemma {:induction false} WithoutCount(keys: seq<string>, y: string, z: string)
    ensures multiset(Without(keys, y))[z] == if z == y then 0 else multiset(keys)[z]
  {
    if keys != [] {
      assert keys == [keys[0]] + keys[1..];
      WithoutCount(keys[1..], y, z);
    }
  }

  /** All of one key, and the rest. */
  lemma PartsOf(keys: seq<string>, y: string)
    ensures multiset(keys) == multiset(Times(y, multiset(keys)[y])) + multiset(Without(keys, y))
  {
    forall z ensures multiset(keys)[z] == (multiset(Times(y, multiset(keys)[y])) + multiset(Without(keys, y)))[z] {
      TimesCount(y, multiset(keys)[y], z);
      WithoutCount(keys, y, z);
    }
  }

  lemma {:induction false} MissingFirstCauses(o: Outputs, y: string, n: nat, rest: seq<TakeBy>)
    requires n > |Left(o, y)|
    ensures Caused(o, Owns(Times(y, n)) + rest)
  {
    var takes := Owns(Times(y, n)) + rest;
    assert Times(y, n)[0] == y && Times(y, n)[1..] == Times(y, n - 1);
    if Left(o, y) != [] {
      MissingFirstCauses(Taken(o, y), y, n - 1, rest);
      assert takes[1..] == Owns(Times(y, n - 1)) + rest;
    }
  }

  lemma {:induction false} MissesJoin(o: Outputs, a: seq<string>, b: seq<string>)
    ensures Misses(o, a + b) == Misses(o, a) + Misses(AfterTakes(o, Owns(a)), b)
  {
    if a == [] {
      assert a + b == b;
    } else {
      assert (a + b)[1..] == a[1..] + b;
      assert Owns(a)[1..] == Owns(a[1..]);
      MissesJoin(Taken(o, a[0]), a[1..], b);
    }
  }

  /** The stage's first takes, and then an order in which the rest of them miss more. */
  lemma MoreAfter(o: Outputs, keys: seq<string>, delegated: seq<string>, first: seq<string>, rest: seq<string>, more: seq<TakeBy>)
    requires multiset(keys) == multiset(first) + multiset(rest)
    requires Interleaves(more, rest, delegated)
    requires var p := AfterTakes(o, Owns(first)); OwnMisses(p, more) > Misses(p, rest)
    ensures Interleaves(Owns(first) + more, keys, delegated)
    ensures OwnMisses(o, Owns(first) + more) > Misses(o, keys)
  {
    OwnsAre(o, first);
    KeysJoin(Owns(first), more);
    TakesJoin(o, Owns(first), more);
    MissesJoin(o, first, rest);
    MissesInAnyOrder(o, keys, first + rest);
  }

  lemma OtherKeyUntouched(o: Outputs, y: string, n: nat, x: string)
    requires y != x
    ensures |Left(AfterTakes(o, Owns(Times(y, n))), x)| == |Left(o, x)|
  {
    var first := Owns(Times(y, n));
    OwnsAre(o, Times(y, n));
    KeysAreOwnAndDelegated(first);
    TimesCount(y, n, x);
    LeftAfter(o, first, x);
  }

  /** The steps of another key come first, the last of them runs and delegates, and the delegated tasks come next. */
  lemma RunningStepFirst(o: Outputs, keys: seq<string>, delegated: seq<string>, x: string) returns (takes: seq<TakeBy>)
    requires x in keys && x in delegated && OtherRuns(o, keys, x)
    requires !Enough(o, x, multiset(keys)[x] + multiset(delegated)[x])
    ensures Interleaves(takes, keys, delegated) && Caused(o, takes) && OwnMisses(o, takes) > Misses(o, keys)
  {
    var y :| y in keys && y != x && multiset(keys)[y] > |Left(o, y)|;
    var n := multiset(keys)[y];
    var rest := Without(keys, y);
    OtherKeyUntouched(o, y, n, x);
    PartsOf(keys, y);
    WithoutCount(keys, y, x);
    assert x in multiset(keys);
    assert x in multiset(rest);
    DelegatedFirst(AfterTakes(o, Owns(Times(y, n))), rest, delegated, x);
    var more := Delegations(delegated) + Owns(rest);
    MissingFirstCauses(o, y, n, more);
    MoreAfter(o, keys, delegated, Times(y, n), rest, more);
    takes := Owns(Times(y, n)) + more;
  }

  /**
   * As delegated tasks come only from agents that run, toRun is exact in every order that
   * can happen if and only if each key they share with the stage has no recorded output, or
   * enough for every take of it, or no step with another key has to run.
   */
  lemma ToRunIsExactWhenCaused(o: Outputs, keys: seq<string>, delegated: seq<string>)
    ensures ExactWhenCaused(o, keys, delegated) <==> SufficeWhenCaused(o, keys, delegated)
  {
    if SufficeWhenCaused(o, keys, delegated) {
      forall takes: seq<TakeBy> | Interleaves(takes, keys, delegated) && Caused(o, takes)
        ensures OwnMisses(o, takes) == Misses(o, keys)
      {
        SufficeInAnyOrder(o, keys, delegated, takes);
        CausedIsExact(o, takes);
        MissesInAnyOrder(o, keys, OwnKeys(takes));
      }
    } else {
      var x :| x in keys && x in delegated
               && !(Enough(o, x, multiset(keys)[x] + multiset(delegated)[x]) || !OtherRuns(o, keys, x));
      var takes := RunningStepFirst(o, keys, delegated, x);
    }
  }

  lemma SufficeInAnyOrder(o: Outputs, keys: seq<string>, delegated: seq<string>, takes: seq<TakeBy>)
    requires SufficeWhenCaused(o, keys, delegated) && Interleaves(takes, keys, delegated)
    ensures EnoughOrAllIdle(o, takes)
  {
    var own := OwnKeys(takes);
    KeysAreOwnAndDelegated(takes);
    forall key | key in own && key in DelegatedKeys(takes) ensures EnoughOrIdle(o, takes, key) {
      assert key in multiset(own) && key in multiset(DelegatedKeys(takes));
      assert key in multiset(keys) && key in multiset(delegated);
      if OtherRuns(o, own, key) {
        var y :| y in own && y != key && multiset(own)[y] > |Left(o, y)|;
        assert y in multiset(own);
        assert y in multiset(keys);
      }
    }
  }

  /**
   * The smallest case: one step has to run, delegates the other step's agent and prompt, and
   * the task it delegates takes the output which that other step was counted on to reuse.
   */
  lemma DelegatedTakeMayMiss(y: string, key: string, out: string)
    requires y != key
    ensures var o: Outputs := map[key := [out]];
            var takes := [Own(y), Delegated(key), Own(key)];
            Caused(o, takes) && Misses(o, [y, key]) == 1 && OwnMisses(o, takes) == 2
  {
    var o: Outputs := map[key := [out]];
    assert [y, key][1..] == [key];
    assert Misses(o, [key]) == 0;
    assert [Own(y), Delegated(key), Own(key)][1..] == [Delegated(key), Own(key)];
    assert [Delegated(key), Own(key)][1..] == [Own(key)];
    assert Left(Taken(o, key), key) == [];
    assert OwnMisses(Taken(o, key), [Own(key)]) == 1;
  }
}
