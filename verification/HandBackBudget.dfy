/** The hand-backs a workflow allows in all, and the stage starts they pay for. */
module HandBackBudget {
  import opened Workflow

  function Limit(h: HandBack): nat {
    if h.maxTimes == 0 then DEFAULT_HAND_BACKS else h.maxTimes
  }

  function Sum(xs: seq<nat>): nat {
    if xs == [] then 0 else xs[0] + Sum(xs[1..])
  }

  function LimitAt(p: Plan, i: nat): nat
    requires i < |p.hand|
  {
    if p.hand[i].Some? then Limit(p.hand[i].value) else 0
  }

  /** The hand-backs a workflow allows in all. */
  function Limits(p: Plan): nat {
    Sum(seq(|p.hand|, i requires 0 <= i < |p.hand| => LimitAt(p, i)))
  }

  function LeftAt(p: Plan, handBacks: seq<nat>, i: nat): nat
    requires i < |p.hand| == |handBacks|
  {
    if LimitAt(p, i) > handBacks[i] then LimitAt(p, i) - handBacks[i] else 0
  }

  function Left(p: Plan, handBacks: seq<nat>): nat
    requires |p.hand| == |handBacks|
  {
    Sum(seq(|p.hand|, i requires 0 <= i < |p.hand| => LeftAt(p, handBacks, i)))
  }

  /** n * k, unfolded one hand-back at a time. */
  function Times(n: nat, k: nat): nat {
    if k == 0 then 0 else n + Times(n, k - 1)
  }

  lemma {:induction false} SumUpdate(xs: seq<nat>, i: nat, v: nat)
    requires i < |xs|
    ensures Sum(xs[i := v]) == Sum(xs) - xs[i] + v
  {
    if i == 0 {
      assert xs[i := v][1..] == xs[1..];
    } else {
      assert xs[i := v][1..] == xs[1..][i - 1 := v];
      SumUpdate(xs[1..], i - 1, v);
    }
  }

  lemma LeftAfterHandBack(p: Plan, handBacks: seq<nat>, i: nat)
    requires i < |p.hand| == |handBacks|
    ensures var next := handBacks[i := handBacks[i] + 1];
            Left(p, next) == if handBacks[i] < LimitAt(p, i) then Left(p, handBacks) - 1 else Left(p, handBacks)
  {
    var next := handBacks[i := handBacks[i] + 1];
    var before := seq(|p.hand|, k requires 0 <= k < |p.hand| => LeftAt(p, handBacks, k));
    var after := seq(|p.hand|, k requires 0 <= k < |p.hand| => LeftAt(p, next, k));
    assert after == before[i := LeftAt(p, next, i)];
    SumUpdate(before, i, LeftAt(p, next, i));
  }

  lemma {:induction false} TimesMono(n: nat, a: nat, b: nat)
    requires a <= b
    ensures Times(n, a) <= Times(n, b)
  {
    if a < b {
      TimesMono(n, a, b - 1);
    }
  }

  lemma {:induction false} TimesIsProduct(n: nat, k: nat)
    ensures Times(n, k) == n * k
  {
    if k > 0 {
      TimesIsProduct(n, k - 1);
      assert n * k == n * (k - 1) + n;
    }
  }

  lemma LeftAtStart(p: Plan, handBacks: seq<nat>)
    requires |handBacks| == |p.hand| && forall i :: 0 <= i < |handBacks| ==> handBacks[i] == 0
    ensures Left(p, handBacks) == Limits(p)
  {
    assert seq(|p.hand|, k requires 0 <= k < |p.hand| => LeftAt(p, handBacks, k))
        == seq(|p.hand|, k requires 0 <= k < |p.hand| => LimitAt(p, k));
  }

  lemma TimesOneMore(n: nat, k: nat)
    ensures Times(n, 1 + k) == n + Times(n, k)
  {
  }
}
