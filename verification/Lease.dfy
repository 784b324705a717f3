/**
 * Run leases: the store's operations on a run's owner, and the processes that claim,
 * renew, close and release a run they share.
 */
module Lease {
  /** A stored run. The owner is "" while nobody holds it. */
  datatype Row = Row(tenant: string, status: string, owner: string, until: int, cancelRequested: bool)

  // ---- One run ----

  datatype Op =
    | Claim(who: string, lease: int)
    | Renew(who: string, lease: int)
    | Release(who: string)
    | Write(status: string)
    | AskCancel

  /** Whether a claim is granted, or a renewal answered with the run. */
  predicate Told(row: Row, now: int, op: Op) {
    match op
    case Claim(who, _) => row.owner == "" || row.owner == who || row.until <= now
    case Renew(who, _) => row.owner == who
    case _ => false
  }

  function RowAfter(row: Row, now: int, op: Op): Row {
    match op
    case Claim(who, lease) => if Told(row, now, op) then row.(owner := who, until := now + lease) else row
    case Renew(who, lease) => if Told(row, now, op) then row.(until := now + lease) else row
    case Release(who) => if row.owner == who then row.(owner := "", until := 0) else row
    case Write(status) => row.(status := status)
    case AskCancel => row.(cancelRequested := true)
  }

  // ---- The store ----

  datatype Answer = Done | NotFound | Conflict

  class MemStore {
    var runs: map<string, Row>

    constructor ()
      ensures runs == map[]
    {
      runs := map[];
    }

    /** The run has taken the operation and every other run is as it was. */
    twostate predicate Took(id: string, now: int, op: Op)
      requires id in old(runs)
      reads this
    {
      runs == old(runs)[id := RowAfter(old(runs)[id], now, op)]
    }

    method UpdateRun(id: string, run: Row) returns (a: Answer)
      modifies this
      ensures a.Done? <==> id in old(runs) && old(runs)[id].tenant == run.tenant
      ensures if a.Done? then Took(id, 0, Write(run.status)) else a.NotFound? && runs == old(runs)
      ensures a.Done? ==> runs[id].owner == old(runs)[id].owner && runs[id].until == old(runs)[id].until
      ensures a.Done? ==> runs[id].status == run.status && runs[id].cancelRequested == old(runs)[id].cancelRequested
    {
      if id !in runs || runs[id].tenant != run.tenant {
        return NotFound;
      }
      var cur := runs[id];
      runs := runs[id := run.(owner := cur.owner, until := cur.until, cancelRequested := cur.cancelRequested)];
      return Done;
    }

    method ClaimRun(now: int, tenant: string, id: string, owner: string, lease: int) returns (a: Answer)
      modifies this
      ensures a.NotFound? <==> id !in old(runs) || old(runs)[id].tenant != tenant
      ensures !a.NotFound? ==> (a.Done? <==> Told(old(runs)[id], now, Claim(owner, lease))) && Took(id, now, Claim(owner, lease))
      ensures !a.NotFound? ==>
                (a.Done? <==> old(runs)[id].owner == "" || old(runs)[id].owner == owner || old(runs)[id].until <= now)
      ensures a.Done? ==> runs[id] == old(runs)[id].(owner := owner, until := now + lease)
      ensures a.Conflict? ==> runs == old(runs)
      ensures a.NotFound? ==> runs == old(runs)
    {
      if id !in runs || runs[id].tenant != tenant {
        return NotFound;
      }
      var r := runs[id];
      if r.owner != "" && r.owner != owner && now < r.until {
        assert runs[id := r] == runs;
        return Conflict;
      }
      runs := runs[id := r.(owner := owner, until := now + lease)];
      return Done;
    }

    /** Answers, for each run asked about that this owner holds, whether its cancellation was asked for. */
    method RenewLeases(now: int, owner: string, ids: seq<string>, lease: int) returns (held: map<string, bool>)
      modifies this
      ensures forall id :: id in held <==> id in ids && id in old(runs) && Told(old(runs)[id], now, Renew(owner, lease))
      ensures forall id :: id in held ==> held[id] == old(runs)[id].cancelRequested
      ensures runs.Keys == old(runs).Keys
      ensures forall id :: id in held <==> id in ids && id in old(runs) && old(runs)[id].owner == owner
      ensures forall id :: id in held ==> runs[id] == old(runs)[id].(until := now + lease)
      ensures forall id :: id in runs && id !in held ==> runs[id] == old(runs)[id]
      ensures forall id :: id in runs ==> runs[id] == if id in ids then RowAfter(old(runs)[id], now, Renew(owner, lease)) else old(runs)[id]
    {
      held := map[];
      for k := 0 to |ids|
        invariant forall id :: id in held <==> id in ids[..k] && id in old(runs) && old(runs)[id].owner == owner
        invariant forall id :: id in held ==> held[id] == old(runs)[id].cancelRequested
        invariant runs.Keys == old(runs).Keys
        invariant forall id :: id in runs ==> runs[id] == if id in held then old(runs)[id].(until := now + lease) else old(runs)[id]
      {
        var id := ids[k];
        assert ids[..k + 1] == ids[..k] + [id];
        if id in runs && runs[id].owner == owner {
          runs := runs[id := runs[id].(until := now + lease)];
          held := held[id := runs[id].cancelRequested];
        }
      }
      assert ids[..|ids|] == ids;
    }

    method ReleaseRun(id: string, owner: string)
      modifies this
      ensures if id in old(runs) then Took(id, 0, Release(owner)) else runs == old(runs)
      ensures id in old(runs) && old(runs)[id].owner == owner ==> runs[id].owner == "" && runs[id].until == 0
      ensures id in old(runs) && old(runs)[id].owner != owner ==> runs == old(runs)
    {
      if id in runs {
        if runs[id].owner == owner {
          runs := runs[id := runs[id].(owner := "", until := 0)];
        } else {
          assert runs[id := runs[id]] == runs;
        }
      }
    }

    method RequestCancel(tenant: string, id: string) returns (a: Answer)
      modifies this
      ensures a.Done? <==> id in old(runs) && old(runs)[id].tenant == tenant
      ensures if a.Done? then Took(id, 0, AskCancel) else a.NotFound? && runs == old(runs)
      ensures a.Done? ==> runs[id] == old(runs)[id].(cancelRequested := true)
    {
      if id !in runs || runs[id].tenant != tenant {
        return NotFound;
      }
      runs := runs[id := runs[id].(cancelRequested := true)];
      return Done;
    }
  }

  /** stillLeased: the closing renewal. Without an answer from the store the process takes it that it still holds the run. */
  method StillLeased(store: MemStore, now: int, id: string, owner: string, lease: int, lost: bool, answered: bool) returns (ok: bool)
    modifies store
    ensures ok <==> !lost && (answered ==> id in old(store.runs) && old(store.runs)[id].owner == owner)
    ensures ok && answered ==> id in store.runs && store.runs[id] == old(store.runs)[id].(until := now + lease)
    ensures forall other :: other in old(store.runs) && other != id ==> other in store.runs && store.runs[other] == old(store.runs)[other]
  {
    if lost || !answered {
      return !lost;
    }
    var held := store.RenewLeases(now, owner, [id], lease);
    ok := id in held;
  }

  // ---- Any order of operations ----

  datatype Timed = At(now: int, op: Op)

  predicate InOrder(trace: seq<Timed>) {
    forall j, k :: 0 <= j < k < |trace| ==> trace[j].now <= trace[k].now
  }

  /** The run after the first k operations. */
  function RowAt(row: Row, trace: seq<Timed>, k: nat): Row
    requires k <= |trace|
  {
    if k == 0 then row else RowAfter(RowAt(row, trace, k - 1), trace[k - 1].now, trace[k - 1].op)
  }

  predicate IsBy(op: Op, a: string) {
    (op.Claim? || op.Renew? || op.Release?) && op.who == a
  }

  /** The operation by which an owner gives the run up, or loses it to a claim at or after its expiry. */
  predicate Yields(row: Row, t: Timed, a: string) {
    row.owner == a && (t.op == Release(a) || (t.op.Claim? && t.op.who != a && row.until <= t.now))
  }

  /** A run passes from one owner to another only after the first released it, or its lease expired. */
  lemma {:induction false} OwnershipPasses(row: Row, trace: seq<Timed>, a: string, k: nat) returns (y: nat)
    requires k <= |trace| && a != "" && row.owner == a && RowAt(row, trace, k).owner != a
    ensures y < k && Yields(RowAt(row, trace, y), trace[y], a)
  {
    if RowAt(row, trace, k - 1).owner == a {
      y := k - 1;
    } else {
      y := OwnershipPasses(row, trace, a, k - 1);
    }
  }

  /** An owner that lost the run is not told that it holds it until it claims it again. */
  lemma {:induction false} DisplacedIsNotTold(row: Row, trace: seq<Timed>, a: string, k: nat)
    requires k <= |trace| && row.owner != a
    requires forall j :: 0 <= j < k && trace[j].op.Claim? ==> trace[j].op.who != a
    requires a != ""
    ensures RowAt(row, trace, k).owner != a
    ensures k < |trace| && IsBy(trace[k].op, a) && Told(RowAt(row, trace, k), trace[k].now, trace[k].op) ==> trace[k].op.Claim?
  {
    if k > 0 {
      DisplacedIsNotTold(row, trace, a, k - 1);
    }
  }

  /** A run its owner released is free for any claim. */
  lemma ReleasedIsFree(row: Row, now: int, later: int, a: string, b: string, lease: int)
    requires row.owner == a
    ensures Told(RowAfter(row, now, Release(a)), later, Claim(b, lease))
  {
  }

  predicate NoWrite(trace: seq<Timed>, from: nat, k: nat) {
    forall i :: from <= i < k && i < |trace| ==> !trace[i].op.Write?
  }

  predicate LastWrite(trace: seq<Timed>, k: nat, j: nat) {
    j < k <= |trace| && trace[j].op.Write? && NoWrite(trace, j + 1, k)
  }

  /** Whoever owns the run meanwhile, its status is the one written last. */
  lemma {:induction false} StatusIsLastWritten(row: Row, trace: seq<Timed>, k: nat, j: nat)
    requires k <= |trace|
    ensures NoWrite(trace, 0, k) ==> RowAt(row, trace, k).status == row.status
    ensures LastWrite(trace, k, j) ==> RowAt(row, trace, k).status == trace[j].op.status
  {
    if k > 0 {
      StatusIsLastWritten(row, trace, k - 1, j);
      if j < k - 1 {
        assert LastWrite(trace, k, j) ==> LastWrite(trace, k - 1, j);
      }
    }
  }

  /**
   * Once its cancellation was asked for the run says so, and it says so only then; so every
   * renewal that is granted later reports it.
   */
  lemma {:induction false} CancelStaysAsked(row: Row, trace: seq<Timed>, k: nat)
    requires k <= |trace|
    ensures RowAt(row, trace, k).cancelRequested <==> row.cancelRequested || exists j :: 0 <= j < k && trace[j].op.AskCancel?
    ensures RowAt(row, trace, k).tenant == row.tenant
  {
    if k > 0 {
      CancelStaysAsked(row, trace, k - 1);
    }
  }

  /** What other processes may do to a run between two moments. */
  predicate OthersOnly(trace: seq<Timed>, a: string, from: int, to: int) {
    InOrder(trace) && forall k :: 0 <= k < |trace| ==> from <= trace[k].now <= to && !IsBy(trace[k].op, a)
  }

  ghost predicate KeepsWhateverOthersDo(row: Row, a: string, from: int, to: int) {
    forall trace: seq<Timed> :: OthersOnly(trace, a, from, to) ==> RowAt(row, trace, |trace|).owner == a
  }

  lemma {:induction false} LeaseHolds(row: Row, a: string, from: int, to: int, trace: seq<Timed>, k: nat)
    requires OthersOnly(trace, a, from, to) && a != "" && row.owner == a && to < row.until && k <= |trace|
    ensures RowAt(row, trace, k).owner == a && RowAt(row, trace, k).until == row.until
  {
    if k > 0 {
      LeaseHolds(row, a, from, to, trace, k - 1);
    }
  }

  /** An owner told at `from` that it holds the run still owns it at `to`, whatever others do, exactly while its lease lasts. */
  lemma OwnsExactlyForTheLease(row: Row, a: string, from: int, to: int, lease: int)
    requires a != "" && row.owner == a && row.until == from + lease && from <= to
    ensures KeepsWhateverOthersDo(row, a, from, to) <==> to < from + lease
  {
    if to < from + lease {
      forall trace: seq<Timed> | OthersOnly(trace, a, from, to) ensures RowAt(row, trace, |trace|).owner == a {
        LeaseHolds(row, a, from, to, trace, |trace|);
      }
    } else {
      var takeover := [At(to, Claim(a + "'", lease))];
      assert OthersOnly(takeover, a, from, to);
      assert RowAt(row, takeover, 0) == row;
      assert RowAt(row, takeover, |takeover|).owner == a + "'" != a;
    }
  }

  // ---- The processes that share one run ----

  /**
   * Holding: the process works on the run, and was last told at `told` that it holds it.
   * Unsure: its closing renewal was not answered since, and it carries on.
   */
  datatype Phase = Idle | Holding(told: int) | Unsure(told: int) | Written

  datatype System = System(now: int, row: Row, phases: map<string, Phase>)

  datatype Step =
    | Pass(time: nat)
    | TryClaim(p: string)
    | KeepAlive(p: string)
    | CloseUnanswered(p: string, applied: bool)
    | WriteFinal(p: string, status: string)
    | GiveBack(p: string)
    | GiveUp(p: string)
    | RequestCancel

  function PhaseOf(s: System, p: string): Phase {
    if p in s.phases then s.phases[p] else Idle
  }

  predicate MayWrite(phase: Phase) {
    phase.Holding? || phase.Unsure?
  }

  predicate Enabled(s: System, step: Step) {
    match step
    case Pass(_) => true
    case RequestCancel => true
    case TryClaim(p) => p != "" && PhaseOf(s, p).Idle?
    case KeepAlive(p) => PhaseOf(s, p).Holding?
    case CloseUnanswered(p, _) => PhaseOf(s, p).Holding?
    case WriteFinal(p, _) => MayWrite(PhaseOf(s, p))
    case GiveBack(p) => !PhaseOf(s, p).Idle?
    case GiveUp(p) => !PhaseOf(s, p).Idle?
  }

  function Moved(s: System, p: string, op: Op, phase: Phase): System {
    System(s.now, RowAfter(s.row, s.now, op), s.phases[p := phase])
  }

  /** KeepAlive is any answered renewal, the closing one too: a process told that it lost the run stops without writing. */
  function Apply(lease: int, s: System, step: Step): System
    requires Enabled(s, step)
  {
    match step
    case Pass(time) => s.(now := s.now + time)
    case RequestCancel => s.(row := RowAfter(s.row, s.now, AskCancel))
    case TryClaim(p) =>
      Moved(s, p, Claim(p, lease), if Told(s.row, s.now, Claim(p, lease)) then Holding(s.now) else Idle)
    case KeepAlive(p) =>
      Moved(s, p, Renew(p, lease), if Told(s.row, s.now, Renew(p, lease)) then Holding(s.now) else Idle)
    case CloseUnanswered(p, applied) =>
      var unsure := Unsure(PhaseOf(s, p).told);
      if applied then Moved(s, p, Renew(p, lease), unsure) else s.(phases := s.phases[p := unsure])
    case WriteFinal(p, status) => Moved(s, p, Write(status), Written)
    case GiveBack(p) => Moved(s, p, Release(p), Idle)
    case GiveUp(p) => s.(phases := s.phases[p := Idle])
  }

  predicate IsRun(lease: int, s: System, steps: seq<Step>)
    decreases |steps|
  {
    steps == [] || (Enabled(s, steps[0]) && IsRun(lease, Apply(lease, s, steps[0]), steps[1..]))
  }

  function After(lease: int, s: System, steps: seq<Step>): System
    requires IsRun(lease, s, steps)
    decreases |steps|
  {
    if steps == [] then s else After(lease, Apply(lease, s, steps[0]), steps[1..])
  }

  /** The process may write, and was told that it holds the run less than a lease ago. */
  predicate WithinLease(lease: int, s: System, p: string) {
    MayWrite(PhaseOf(s, p)) && s.now < PhaseOf(s, p).told + lease
  }

  predicate LiveOwner(s: System, p: string) {
    s.row.owner == p && s.now < s.row.until
  }

  ghost predicate Inv(lease: int, s: System) {
    && (forall p :: p in s.phases && !s.phases[p].Idle? ==> p != "")
    && forall p :: p in s.phases && MayWrite(s.phases[p]) ==>
         && s.phases[p].told <= s.now
         && (WithinLease(lease, s, p) ==> s.row.owner == p && s.phases[p].told + lease <= s.row.until)
  }

  lemma StepKeeps(lease: int, s: System, step: Step)
    requires Inv(lease, s) && Enabled(s, step)
    ensures Inv(lease, Apply(lease, s, step))
  {
    var t := Apply(lease, s, step);
    forall p | p in t.phases && MayWrite(t.phases[p]) && WithinLease(lease, t, p)
      ensures t.row.owner == p && t.phases[p].told + lease <= t.row.until
    {
      if p in s.phases && MayWrite(s.phases[p]) && t.phases[p].told == s.phases[p].told {
        assert WithinLease(lease, s, p);
      }
    }
  }

  lemma {:induction false} RunKeeps(lease: int, s: System, steps: seq<Step>)
    requires Inv(lease, s) && IsRun(lease, s, steps)
    ensures Inv(lease, After(lease, s, steps))
    decreases |steps|
  {
    if steps != [] {
      StepKeeps(lease, s, steps[0]);
      RunKeeps(lease, Apply(lease, s, steps[0]), steps[1..]);
    }
  }

  /**
   * From any stored run that no process works on: a final status written less than a
   * lease after the writer was last told that it holds the run, whether or not its closing
   * renewal was answered, is written by the owner whose lease is then live, so by no other
   * process.
   */
  lemma FinalWriteByLiveOwner(lease: int, now: int, row: Row, steps: seq<Step>, p: string, q: string)
    requires IsRun(lease, System(now, row, map[]), steps)
    requires WithinLease(lease, After(lease, System(now, row, map[]), steps), p)
    ensures LiveOwner(After(lease, System(now, row, map[]), steps), p)
    ensures WithinLease(lease, After(lease, System(now, row, map[]), steps), q) ==> p == q
  {
    RunKeeps(lease, System(now, row, map[]), steps);
  }

  /**
   * From the end of its last answered lease on, a process whose closing renewal was not
   * answered may write a final status although another owns the run.
   */
  lemma UnansweredWriteMayMiss(lease: int)
    requires lease > 0
    ensures var steps := [TryClaim("a"), CloseUnanswered("a", false), Pass(lease), TryClaim("b")];
            var start := System(0, Row("t", "running", "", 0, false), map[]);
            && IsRun(lease, start, steps)
            && var s := After(lease, start, steps);
               Enabled(s, WriteFinal("a", "succeeded")) && LiveOwner(s, "b")
  {
    var s0 := System(0, Row("t", "running", "", 0, false), map[]);
    var s1 := Apply(lease, s0, TryClaim("a"));
    var s2 := Apply(lease, s1, CloseUnanswered("a", false));
    var s3 := Apply(lease, s2, Pass(lease));
    StepThen(lease, s3, TryClaim("b"), []);
    StepThen(lease, s2, Pass(lease), [TryClaim("b")]);
    StepThen(lease, s1, CloseUnanswered("a", false), [Pass(lease), TryClaim("b")]);
    StepThen(lease, s0, TryClaim("a"), [CloseUnanswered("a", false), Pass(lease), TryClaim("b")]);
  }

  lemma StepThen(lease: int, s: System, step: Step, rest: seq<Step>)
    requires Enabled(s, step) && IsRun(lease, Apply(lease, s, step), rest)
    ensures IsRun(lease, s, [step] + rest) && After(lease, s, [step] + rest) == After(lease, Apply(lease, s, step), rest)
  {
    assert ([step] + rest)[1..] == rest;
  }
}
