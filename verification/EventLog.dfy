/**
 * The event log of the in-memory store: it numbers the events of each run and of each
 * session, answers queries, and offers what is appended to the subscriptions of its run.
 */
module EventLog {
  import opened Wrappers
  import opened Core

  // ---- Numbering ----

  /** The events that are numbered together. */
  datatype Scope = OfRun(id: string) | OfSession(id: string)

  predicate InScope(ev: Event, scope: Scope) {
    match scope
    case OfRun(id) => ev.run == id
    case OfSession(id) => ev.session == id
  }

  function Number(ev: Event, scope: Scope): int {
    if scope.OfRun? then ev.sequence else ev.sessionSequence
  }

  function EventsOf(log: seq<Event>, scope: Scope): seq<Event> {
    if log == [] then []
    else
      var last := log[|log| - 1];
      EventsOf(log[..|log| - 1], scope) + if InScope(last, scope) then [last] else []
  }

  predicate NumberedAt(log: seq<Event>, i: nat)
    requires i < |log|
  {
    && (log[i].run != "" ==> log[i].sequence == |EventsOf(log[..i], OfRun(log[i].run))| + 1)
    && (log[i].session != "" ==> log[i].sessionSequence == |EventsOf(log[..i], OfSession(log[i].session))| + 1)
  }

  /** Every event's number is its place among the events of its run, and of its session. */
  predicate Gapless(log: seq<Event>) {
    forall i :: 0 <= i < |log| ==> NumberedAt(log, i)
  }

  lemma GaplessPrefix(log: seq<Event>, n: nat)
    requires Gapless(log) && n <= |log|
    ensures Gapless(log[..n])
  {
    forall i | 0 <= i < n ensures NumberedAt(log[..n], i) {
      assert log[..n][..i] == log[..i] && NumberedAt(log, i);
    }
  }

  /** The events of a run, and of a session, are numbered 1, 2, 3, … in the order they were appended. */
  lemma {:induction false} NumberedFromOne(log: seq<Event>, scope: Scope)
    requires Gapless(log) && scope.id != ""
    ensures forall k :: 0 <= k < |EventsOf(log, scope)| ==>
              Number(EventsOf(log, scope)[k], scope) == k + 1 && InScope(EventsOf(log, scope)[k], scope)
  {
    if log != [] {
      var n := |log| - 1;
      GaplessPrefix(log, n);
      NumberedFromOne(log[..n], scope);
      assert NumberedAt(log, n);
    }
  }

  /** The events numbered after `after` in a list numbered 1, 2, 3, …; `after` comes from a client and may be any number. */
  function Tail(events: seq<Event>, after: int): seq<Event> {
    if after <= 0 then events else if after >= |events| then [] else events[after..]
  }

  /** The events a query for one run after a number selects. */
  function Later(log: seq<Event>, tenant: Option<string>, run: string, after: int): seq<Event> {
    if log == [] then []
    else
      var last := log[|log| - 1];
      Later(log[..|log| - 1], tenant, run, after)
      + if last.run == run && (tenant == None || tenant == Some(last.tenant)) && last.sequence > after then [last] else []
  }

  /** All events of the run belong to the tenant. */
  predicate Owned(log: seq<Event>, tenant: string, run: string) {
    forall i :: 0 <= i < |log| && log[i].run == run ==> log[i].tenant == tenant
  }

  lemma TailPush(events: seq<Event>, ev: Event, after: int)
    requires ev.sequence == |events| + 1
    ensures Tail(events + [ev], after) == Tail(events, after) + if ev.sequence > after then [ev] else []
  {
  }

  lemma {:induction false} LaterIsTail(log: seq<Event>, tenant: Option<string>, run: string, after: int)
    requires Gapless(log) && run != "" && (tenant == None || Owned(log, tenant.value, run))
    ensures Later(log, tenant, run, after) == Tail(EventsOf(log, OfRun(run)), after)
  {
    if log != [] {
      var n := |log| - 1;
      GaplessPrefix(log, n);
      LaterIsTail(log[..n], tenant, run, after);
      if log[n].run == run {
        assert NumberedAt(log, n);
        TailPush(EventsOf(log[..n], OfRun(run)), log[n], after);
      } else {
        assert EventsOf(log, OfRun(run)) == EventsOf(log[..n], OfRun(run));
        assert Later(log, tenant, run, after) == Later(log[..n], tenant, run, after);
      }
    }
  }

  predicate Selected(ev: Event, tenant: Option<string>, run: string, after: int) {
    ev.run == run && (tenant.Some? ==> ev.tenant == tenant.value) && ev.sequence > after
  }

  /** The places in the log of the events that a query selects: in order, and all of them. */
  predicate SelectedAt(log: seq<Event>, tenant: Option<string>, run: string, after: int, places: seq<nat>) {
    && (forall k :: 0 <= k < |places| ==> places[k] < |log| && Selected(log[places[k]], tenant, run, after))
    && (forall j, k :: 0 <= j < k < |places| ==> places[j] < places[k])
    && forall i: nat :: i < |log| && Selected(log[i], tenant, run, after) ==> i in places
  }

  lemma SelectMore(log: seq<Event>, tenant: Option<string>, run: string, after: int, places: seq<nat>)
    requires log != [] && SelectedAt(log[..|log| - 1], tenant, run, after, places)
    ensures SelectedAt(log, tenant, run, after, places + if Selected(log[|log| - 1], tenant, run, after) then [|log| - 1] else [])
  {
    var n := |log| - 1;
    var more := places + if Selected(log[n], tenant, run, after) then [n] else [];
    forall i: nat | i < |log| && Selected(log[i], tenant, run, after) ensures i in more {
      if i < n {
        assert log[..n][i] == log[i];
        assert i in places;
      } else {
        assert more[|places|] == n;
      }
    }
  }

  /** A query gives exactly the events it asks for, in the order of the log. */
  lemma {:induction false} LaterSelects(log: seq<Event>, tenant: Option<string>, run: string, after: int) returns (places: seq<nat>)
    ensures SelectedAt(log, tenant, run, after, places) && |places| == |Later(log, tenant, run, after)|
    ensures forall k :: 0 <= k < |places| ==> Later(log, tenant, run, after)[k] == log[places[k]]
  {
    places := [];
    if log != [] {
      var n := |log| - 1;
      var fewer := LaterSelects(log[..n], tenant, run, after);
      SelectMore(log, tenant, run, after, fewer);
      places := fewer + if Selected(log[n], tenant, run, after) then [n] else [];
    }
  }

  // ---- The store ----

  /** A subscription's channel. */
  datatype Sub = Sub(run: string, cap: nat, queue: seq<Event>)

  /** Sending an event to a subscription: a full channel drops it. */
  function Offer(sub: Sub, ev: Event): Sub {
    if sub.run == ev.run && |sub.queue| < sub.cap then sub.(queue := sub.queue + [ev]) else sub
  }

  function OfferAll(sub: Sub, events: seq<Event>): Sub {
    if events == [] then sub else Offer(OfferAll(sub, events[..|events| - 1]), events[|events| - 1])
  }

  predicate Counts(counters: map<string, nat>, log: seq<Event>, scope: Scope) {
    (if scope.id in counters then counters[scope.id] else 0) == |EventsOf(log, scope)|
  }

  ghost predicate AllCount(runSeq: map<string, nat>, sessionSeq: map<string, nat>, log: seq<Event>) {
    forall id :: id != "" ==> Counts(runSeq, log, OfRun(id)) && Counts(sessionSeq, log, OfSession(id))
  }

  function Bump(counters: map<string, nat>, id: string): map<string, nat> {
    if id == "" then counters else counters[id := (if id in counters then counters[id] else 0) + 1]
  }

  lemma BumpCounts(runSeq: map<string, nat>, sessionSeq: map<string, nat>, log: seq<Event>, ev: Event)
    requires AllCount(runSeq, sessionSeq, log)
    ensures AllCount(Bump(runSeq, ev.run), Bump(sessionSeq, ev.session), log + [ev])
    ensures ev.run != "" ==> Bump(runSeq, ev.run)[ev.run] == |EventsOf(log, OfRun(ev.run))| + 1
    ensures ev.session != "" ==> Bump(sessionSeq, ev.session)[ev.session] == |EventsOf(log, OfSession(ev.session))| + 1
  {
    assert (log + [ev])[..|log|] == log;
    if ev.run != "" {
      assert Counts(runSeq, log, OfRun(ev.run));
    }
    if ev.session != "" {
      assert Counts(sessionSeq, log, OfSession(ev.session));
    }
    forall id | id != ""
      ensures Counts(Bump(runSeq, ev.run), log + [ev], OfRun(id)) && Counts(Bump(sessionSeq, ev.session), log + [ev], OfSession(id))
    {
      assert Counts(runSeq, log, OfRun(id)) && Counts(sessionSeq, log, OfSession(id));
    }
  }

  function Stamped(runSeq: map<string, nat>, sessionSeq: map<string, nat>, ev: Event): Event {
    ev.(sequence := if ev.run != "" then Bump(runSeq, ev.run)[ev.run] else ev.sequence,
        sessionSequence := if ev.session != "" then Bump(sessionSeq, ev.session)[ev.session] else ev.sessionSequence)
  }

  lemma StampKeeps(log: seq<Event>, runSeq: map<string, nat>, sessionSeq: map<string, nat>, ev: Event)
    requires Gapless(log) && AllCount(runSeq, sessionSeq, log)
    ensures var out := Stamped(runSeq, sessionSeq, ev);
            Gapless(log + [out]) && AllCount(Bump(runSeq, ev.run), Bump(sessionSeq, ev.session), log + [out])
  {
    var out := Stamped(runSeq, sessionSeq, ev);
    BumpCounts(runSeq, sessionSeq, log, out);
    AppendKeepsGapless(log, out);
  }

  class MemStore {
    var events: seq<Event>
    var runSeq: map<string, nat>
    var sessionSeq: map<string, nat>
    var subs: map<nat, Sub>
    var nextSub: nat

    ghost predicate Valid()
      reads this
    {
      && Gapless(events)
      && AllCount(runSeq, sessionSeq, events)
      && forall id :: id in subs ==> id < nextSub
    }

    constructor ()
      ensures Valid() && events == [] && subs == map[]
    {
      events, runSeq, sessionSeq, subs, nextSub := [], map[], map[], map[], 0;
    }

    /** One turn of Append's loop. */
    method AppendOne(ev: Event) returns (out: Event)
      requires Valid()
      modifies this
      ensures Valid() && nextSub == old(nextSub)
      ensures out == ev.(sequence := out.sequence, sessionSequence := out.sessionSequence) && (ev.run == "" ==> out.sequence == ev.sequence)
      ensures events == old(events) + [out]
      ensures subs == map id | id in old(subs) :: Offer(old(subs)[id], out)
    {
      out := ev;
      StampKeeps(events, runSeq, sessionSeq, ev);
      ghost var stamped := Stamped(runSeq, sessionSeq, ev);
      if out.run != "" {
        runSeq := runSeq[out.run := if out.run in runSeq then runSeq[out.run] + 1 else 1];
        out := out.(sequence := runSeq[out.run]);
      }
      if out.session != "" {
        sessionSeq := sessionSeq[out.session := if out.session in sessionSeq then sessionSeq[out.session] + 1 else 1];
        out := out.(sessionSequence := sessionSeq[out.session]);
      }
      assert out == stamped && runSeq == Bump(old(runSeq), ev.run) && sessionSeq == Bump(old(sessionSeq), ev.session);
      events := events + [out];
      subs := map id | id in subs :: Offer(subs[id], out);
    }

    /** Numbers the events, appends them and offers each to the subscriptions to its run. */
    method Append(batch: seq<Event>) returns (out: seq<Event>)
      requires Valid()
      modifies this
      ensures Valid()
      ensures |out| == |batch| && forall k :: 0 <= k < |out| ==> out[k] == batch[k].(sequence := out[k].sequence, sessionSequence := out[k].sessionSequence)
      ensures events == old(events) + out
      ensures subs == map id | id in old(subs) :: OfferAll(old(subs)[id], out)
    {
      out := [];
      for k := 0 to |batch|
        invariant Valid()
        invariant |out| == k && forall j :: 0 <= j < k ==> out[j] == batch[j].(sequence := out[j].sequence, sessionSequence := out[j].sessionSequence)
        invariant events == old(events) + out
        invariant subs == map id | id in old(subs) :: OfferAll(old(subs)[id], out)
      {
        var ev := AppendOne(batch[k]);
        assert (out + [ev])[..k] == out;
        out := out + [ev];
      }
    }

    method ListRunEvents(tenant: string, run: string, after: int, limit: int) returns (out: seq<Event>)
      requires Valid()
      ensures var all := Later(events, Some(tenant), run, after); out == if 0 < limit < |all| then all[..limit] else all
    {
      out := [];
      for i := 0 to |events|
        invariant out == Later(events[..i], Some(tenant), run, after)
        invariant limit > 0 ==> |out| < limit
      {
        assert events[..i + 1][..i] == events[..i];
        if events[i].run == run && events[i].tenant == tenant && events[i].sequence > after {
          out := out + [events[i]];
          if limit > 0 && |out| >= limit {
            LaterGrows(events, Some(tenant), run, after, i + 1);
            return;
          }
        }
      }
      assert events[..|events|] == events;
    }

    /** A channel that holds what the run has after `after`, with room for 256 more. */
    method Subscribe(run: string, after: int) returns (id: nat)
      requires Valid()
      modifies this
      ensures Valid() && events == old(events) && id !in old(subs)
      ensures var backlog := Later(events, None, run, after); subs == old(subs)[id := Sub(run, |backlog| + 256, backlog)]
    {
      id := nextSub;
      nextSub := nextSub + 1;
      var backlog: seq<Event> := [];
      for i := 0 to |events|
        invariant backlog == Later(events[..i], None, run, after)
        invariant events == old(events) && subs == old(subs) && nextSub == id + 1
        invariant Gapless(events) && runSeq == old(runSeq) && sessionSeq == old(sessionSeq)
      {
        assert events[..i + 1][..i] == events[..i];
        if events[i].run == run && events[i].sequence > after {
          backlog := backlog + [events[i]];
        }
      }
      assert events[..|events|] == events;
      subs := subs[id := Sub(run, |backlog| + 256, backlog)];
    }

    /** The cancel func of a subscription, which a stream calls when it ends; in `EventStream` that is part of the step Disconnect. */
    method Unsubscribe(id: nat)
      requires Valid()
      modifies this
      ensures Valid() && events == old(events) && subs == old(subs) - {id}
    {
      subs := subs - {id};
    }
  }

  lemma {:induction false} LaterGrows(log: seq<Event>, tenant: Option<string>, run: string, after: int, n: nat)
    requires n <= |log|
    ensures Later(log[..n], tenant, run, after) <= Later(log, tenant, run, after)
    decreases |log|
  {
    if n < |log| {
      LaterGrows(log[..|log| - 1], tenant, run, after, n);
      assert log[..|log| - 1][..n] == log[..n];
    } else {
      assert log[..n] == log;
    }
  }

  lemma AppendKeepsGapless(log: seq<Event>, ev: Event)
    requires Gapless(log)
    requires ev.run != "" ==> ev.sequence == |EventsOf(log, OfRun(ev.run))| + 1
    requires ev.session != "" ==> ev.sessionSequence == |EventsOf(log, OfSession(ev.session))| + 1
    ensures Gapless(log + [ev])
  {
    forall i | 0 <= i < |log| + 1 ensures NumberedAt(log + [ev], i) {
      assert (log + [ev])[..i] == log[..i];
      assert i < |log| ==> NumberedAt(log, i);
    }
  }
}
