/**
 * A client's stream of a run's events: the history after its Last-Event-ID first, then a
 * subscription, while other callers append.
 */
module EventStream {
  import opened Wrappers
  import opened Collections
  import opened Core
  import opened EventLog

  /** Whose events the client asked for, and after which number. */
  datatype Request = Request(tenant: string, run: string, start: int)

  datatype Phase = Starting | Subscribing | Live(sub: Sub) | Stopped(ended: bool)

  /** drained counts the events handled from history; lost, the events after `start` that a full channel dropped. */
  datatype Stream = Stream(phase: Phase, after: int, handled: seq<Event>, drained: nat, lost: nat)

  datatype System = System(log: seq<Event>, stream: Stream)

  datatype Step = Append(ev: Event) | Drain | Subscribe | Receive | Disconnect

  function LastNumber(events: seq<Event>, start: int): int {
    if events == [] then start else events[|events| - 1].sequence
  }

  predicate EndsLast(events: seq<Event>) {
    events != [] && EndsRun(events[|events| - 1])
  }

  /** The first loop of streamEvents: a terminal event ends the stream only when nothing follows it. */
  method DrainHistory(history: seq<Event>, start: int) returns (handled: seq<Event>, after: int, stop: bool)
    ensures handled == history && after == LastNumber(history, start) && (stop <==> EndsLast(history))
  {
    handled, after := [], start;
    for i := 0 to |history|
      invariant handled == history[..i] && after == LastNumber(history[..i], start)
      invariant i == |history| ==> !EndsLast(history)
    {
      handled := handled + [history[i]];
      after := history[i].sequence;
      if EndsRun(history[i]) && i == |history| - 1 {
        return handled, after, true;
      }
    }
    assert history[..|history|] == history;
    return handled, after, false;
  }

  function Handle(s: Stream, sub: Sub, ev: Event): Stream {
    if ev.sequence <= s.after then s.(phase := Live(sub))
    else Stream(if EndsRun(ev) then Stopped(true) else Live(sub), ev.sequence, s.handled + [ev], s.drained, s.lost)
  }

  predicate Enabled(r: Request, s: System, step: Step) {
    match step
    case Append(ev) => Gapless(s.log + [ev]) && (ev.run == r.run ==> ev.tenant == r.tenant)
    case Drain => s.stream.phase.Starting?
    case Subscribe => s.stream.phase.Subscribing?
    case Receive => s.stream.phase.Live? && s.stream.phase.sub.queue != []
    case Disconnect => true
  }

  function Apply(r: Request, s: System, step: Step): System
    requires Enabled(r, s, step)
  {
    match step
    case Append(ev) =>
      System(s.log + [ev],
             match s.stream.phase
             case Live(sub) =>
               s.stream.(phase := Live(Offer(sub, ev)), lost := s.stream.lost + if Drops(r, sub, ev) then 1 else 0)
             case _ => s.stream)
    case Drain =>
      var history := Later(s.log, Some(r.tenant), r.run, r.start);
      s.(stream := Stream(if EndsLast(history) then Stopped(true) else Subscribing, LastNumber(history, r.start), history, |history|, 0))
    case Subscribe =>
      var backlog := Later(s.log, None, r.run, s.stream.after);
      s.(stream := s.stream.(phase := Live(Sub(r.run, |backlog| + 256, backlog))))
    case Receive =>
      var sub := s.stream.phase.sub;
      s.(stream := Handle(s.stream, sub.(queue := sub.queue[1..]), sub.queue[0]))
    case Disconnect => s.(stream := s.stream.(phase := Stopped(s.stream.phase == Stopped(true))))
  }

  predicate Drops(r: Request, sub: Sub, ev: Event) {
    ev.run == r.run && |sub.queue| >= sub.cap && ev.sequence > r.start
  }

  function Init(r: Request, log: seq<Event>): System {
    System(log, Stream(Starting, r.start, [], 0, 0))
  }

  predicate IsRun(r: Request, s: System, steps: seq<Step>)
    decreases |steps|
  {
    steps == [] || (Enabled(r, s, steps[0]) && IsRun(r, Apply(r, s, steps[0]), steps[1..]))
  }

  function After(r: Request, s: System, steps: seq<Step>): System
    requires IsRun(r, s, steps)
    decreases |steps|
  {
    if steps == [] then s else After(r, Apply(r, s, steps[0]), steps[1..])
  }

  // ---- The invariant ----

  /** What the client asked for, so far. */
  function Wanted(r: Request, log: seq<Event>): seq<Event> {
    Tail(EventsOf(log, OfRun(r.run)), r.start)
  }

  function Fresh(queue: seq<Event>, start: int): seq<Event> {
    if queue == [] then []
    else (if queue[0].sequence > start then [queue[0]] else []) + Fresh(queue[1..], start)
  }

  function Pending(r: Request, s: Stream): seq<Event> {
    if s.phase.Live? then Fresh(s.phase.sub.queue, r.start) else []
  }

  /** Strictly increasing numbers after `start`, all of the run's own events. */
  predicate Rising(r: Request, log: seq<Event>, events: seq<Event>) {
    && (forall j, k :: 0 <= j < k < |events| ==> events[j].sequence < events[k].sequence)
    && (forall k :: 0 <= k < |events| ==> events[k].sequence > r.start && events[k] in EventsOf(log, OfRun(r.run)))
  }

  predicate LogFits(r: Request, log: seq<Event>) {
    Gapless(log) && r.run != "" && Owned(log, r.tenant, r.run)
  }

  function Known(r: Request, s: Stream): seq<Event> {
    s.handled + Pending(r, s)
  }

  /** The events handled or on their way, and the number lost, make up the events wanted. */
  predicate Accounts(r: Request, log: seq<Event>, known: seq<Event>, lost: nat, live: bool) {
    && Rising(r, log, known)
    && |known| + lost <= |Wanted(r, log)|
    && (lost == 0 ==> known <= Wanted(r, log))
    && (live ==> |known| + lost == |Wanted(r, log)|)
  }

  predicate Ordered(r: Request, s: Stream) {
    && s.after == LastNumber(s.handled, r.start)
    && (s.phase.Starting? ==> s.handled == [])
    && (s.phase.Starting? || s.phase.Subscribing? ==> s.lost == 0)
    && (s.phase.Live? ==> s.phase.sub.run == r.run)
  }

  predicate EndsRight(s: Stream) {
    && s.drained <= |s.handled|
    && (forall k :: s.drained <= k < |s.handled| - 1 ==> !EndsRun(s.handled[k]))
    && (s.phase.Subscribing? || s.phase.Live? ==> !EndsLast(s.handled))
    && (s.phase == Stopped(true) ==> EndsLast(s.handled))
  }

  predicate Inv(r: Request, s: System) {
    LogFits(r, s.log) && Accounts(r, s.log, Known(r, s.stream), s.stream.lost, s.stream.phase.Live?) && Ordered(r, s.stream) && EndsRight(s.stream)
  }

  lemma WantedRises(r: Request, log: seq<Event>)
    requires LogFits(r, log)
    ensures Rising(r, log, Wanted(r, log))
    ensures forall k :: 0 <= k < |Wanted(r, log)| ==> Wanted(r, log)[k].sequence == (if r.start > 0 then r.start else 0) + k + 1
  {
    NumberedFromOne(log, OfRun(r.run));
    var all := EventsOf(log, OfRun(r.run));
    forall k | 0 <= k < |Wanted(r, log)| ensures Wanted(r, log)[k] in all && Number(Wanted(r, log)[k], OfRun(r.run)) == (if r.start > 0 then r.start else 0) + k + 1 {
      assert Wanted(r, log)[k] == all[(if r.start > 0 then r.start else 0) + k];
    }
  }

  lemma {:induction false} FreshPush(queue: seq<Event>, ev: Event, start: int)
    ensures Fresh(queue + [ev], start) == Fresh(queue, start) + if ev.sequence > start then [ev] else []
  {
    if queue == [] {
      assert queue + [ev] == [ev] && [ev][1..] == [];
    } else {
      assert (queue + [ev])[1..] == queue[1..] + [ev];
      FreshPush(queue[1..], ev, start);
    }
  }

  lemma {:induction false} FreshAll(queue: seq<Event>, start: int)
    requires forall k :: 0 <= k < |queue| ==> queue[k].sequence > start
    ensures Fresh(queue, start) == queue
  {
    if queue != [] {
      FreshAll(queue[1..], start);
    }
  }

  /** An appended event is the next one wanted, unless it is another run's or not after `start`. */
  lemma WantedGrows(r: Request, log: seq<Event>, ev: Event)
    requires LogFits(r, log) && Gapless(log + [ev])
    ensures Wanted(r, log + [ev]) == Wanted(r, log) + if ev.run == r.run && ev.sequence > r.start then [ev] else []
    ensures forall e :: e in EventsOf(log, OfRun(r.run)) ==> e in EventsOf(log + [ev], OfRun(r.run))
  {
    assert (log + [ev])[..|log|] == log;
    assert NumberedAt(log + [ev], |log|);
    if ev.run == r.run {
      TailPush(EventsOf(log, OfRun(r.run)), ev, r.start);
    }
  }

  lemma OldNumbers(r: Request, log: seq<Event>, ev: Event, e: Event)
    requires LogFits(r, log) && Gapless(log + [ev]) && ev.run == r.run && e in EventsOf(log, OfRun(r.run))
    ensures e.sequence < ev.sequence
  {
    NumberedFromOne(log, OfRun(r.run));
    assert (log + [ev])[..|log|] == log;
    assert NumberedAt(log + [ev], |log|);
    var k :| 0 <= k < |EventsOf(log, OfRun(r.run))| && EventsOf(log, OfRun(r.run))[k] == e;
    assert Number(e, OfRun(r.run)) == k + 1;
  }

  /** A wanted event that is appended is received by a live stream, or lost, or comes too early to be noticed. */
  lemma AccountsGrow(r: Request, log: seq<Event>, known: seq<Event>, lost: nat, live: bool, ev: Event)
    requires LogFits(r, log) && Gapless(log + [ev]) && Accounts(r, log, known, lost, live)
    ensures !(ev.run == r.run && ev.sequence > r.start) ==> Accounts(r, log + [ev], known, lost, live)
    ensures !live ==> Accounts(r, log + [ev], known, lost, live)
    ensures live && ev.run == r.run && ev.sequence > r.start ==>
              Accounts(r, log + [ev], known + [ev], lost, live) && Accounts(r, log + [ev], known, lost + 1, live)
  {
    WantedGrows(r, log, ev);
    if live && ev.run == r.run && ev.sequence > r.start {
      forall e | e in known ensures e.sequence < ev.sequence {
        OldNumbers(r, log, ev, e);
      }
      assert (log + [ev])[..|log|] == log;
      assert ev in EventsOf(log + [ev], OfRun(r.run));
    }
  }

  lemma AppendKeeps(r: Request, s: System, ev: Event)
    requires Inv(r, s) && Enabled(r, s, Append(ev))
    ensures Inv(r, Apply(r, s, Append(ev)))
  {
    AccountsGrow(r, s.log, Known(r, s.stream), s.stream.lost, s.stream.phase.Live?, ev);
    if s.stream.phase.Live? {
      FreshPush(s.stream.phase.sub.queue, ev, r.start);
      Assoc(s.stream.handled, Pending(r, s.stream), [ev]);
      Unit(Pending(r, s.stream));
    }
  }

  lemma DrainKeeps(r: Request, s: System)
    requires Inv(r, s) && Enabled(r, s, Drain)
    ensures Inv(r, Apply(r, s, Drain))
  {
    LaterIsTail(s.log, Some(r.tenant), r.run, r.start);
    WantedRises(r, s.log);
    assert Wanted(r, s.log) + [] == Wanted(r, s.log);
  }

  /** After the last number handled come the events wanted that are not handled yet. */
  lemma RestOfTail(all: seq<Event>, start: int, handled: seq<Event>)
    requires forall k :: 0 <= k < |all| ==> all[k].sequence == k + 1
    requires handled <= Tail(all, start)
    ensures Tail(all, LastNumber(handled, start)) == Tail(all, start)[|handled|..]
  {
    if handled != [] {
      assert handled[|handled| - 1] == Tail(all, start)[|handled| - 1];
    }
  }

  lemma RestIsFresh(r: Request, log: seq<Event>, n: nat)
    requires LogFits(r, log) && n <= |Wanted(r, log)|
    ensures Fresh(Wanted(r, log)[n..], r.start) == Wanted(r, log)[n..]
  {
    WantedRises(r, log);
    FreshAll(Wanted(r, log)[n..], r.start);
  }

  lemma BacklogIsRest(r: Request, log: seq<Event>, handled: seq<Event>)
    requires LogFits(r, log) && handled <= Wanted(r, log)
    ensures Later(log, None, r.run, LastNumber(handled, r.start)) == Wanted(r, log)[|handled|..]
  {
    var all := EventsOf(log, OfRun(r.run));
    LaterIsTail(log, None, r.run, LastNumber(handled, r.start));
    NumberedFromOne(log, OfRun(r.run));
    assert forall k :: 0 <= k < |all| ==> Number(all[k], OfRun(r.run)) == k + 1;
    RestOfTail(all, r.start, handled);
  }

  lemma AllWanted(r: Request, log: seq<Event>)
    requires LogFits(r, log)
    ensures Accounts(r, log, Wanted(r, log), 0, true)
  {
    WantedRises(r, log);
  }

  lemma SubscribeKeeps(r: Request, s: System)
    requires Inv(r, s) && Enabled(r, s, Subscribe)
    ensures Inv(r, Apply(r, s, Subscribe))
  {
    var handled, wanted := s.stream.handled, Wanted(r, s.log);
    assert Known(r, s.stream) == handled;
    BacklogIsRest(r, s.log, handled);
    RestIsFresh(r, s.log, |handled|);
    assert handled + wanted[|handled|..] == wanted;
    AllWanted(r, s.log);
  }

  /** The first event on its way was wanted exactly if its number is past the last one handled. */
  lemma NextIsPast(start: int, handled: seq<Event>, ev: Event, rest: seq<Event>)
    requires forall k :: 0 <= k < |handled| ==> handled[k].sequence > start
    requires var known := handled + Fresh([ev] + rest, start);
             forall j, k :: 0 <= j < k < |known| ==> known[j].sequence < known[k].sequence
    ensures ev.sequence > LastNumber(handled, start) <==> ev.sequence > start
  {
    FreshCons(ev, rest, start);
    var known := handled + Fresh([ev] + rest, start);
    if handled != [] && ev.sequence > start {
      assert known[|handled| - 1] == handled[|handled| - 1] && known[|handled|] == ev;
    }
  }

  lemma FreshCons(ev: Event, rest: seq<Event>, start: int)
    ensures Fresh([ev] + rest, start) == (if ev.sequence > start then [ev] else []) + Fresh(rest, start)
  {
    assert ([ev] + rest)[1..] == rest;
  }

  lemma MoveOver(handled: seq<Event>, ev: Event, rest: seq<Event>)
    ensures handled + ([ev] + rest) == (handled + [ev]) + rest
    ensures (handled + [ev]) + [] == (handled + ([ev] + rest))[..|handled| + 1]
  {
  }

  /** Receiving moves an event from those on their way to those handled, or skips one that was not wanted. */
  lemma ReceiveKnown(r: Request, s: Stream, sub: Sub, ev: Event)
    requires s.phase.Live? && s.phase.sub.queue == [ev] + sub.queue && s.after == LastNumber(s.handled, r.start)
    requires ev.sequence > s.after <==> ev.sequence > r.start
    ensures var t := Handle(s, sub, ev);
            if t.phase.Live? then Known(r, t) == Known(r, s)
            else |s.handled| < |Known(r, s)| && Known(r, t) == Known(r, s)[..|s.handled| + 1]
  {
    FreshCons(ev, sub.queue, r.start);
    MoveOver(s.handled, ev, Fresh(sub.queue, r.start));
    assert [] + Fresh(sub.queue, r.start) == Fresh(sub.queue, r.start);
  }

  lemma AccountsPrefix(r: Request, log: seq<Event>, known: seq<Event>, lost: nat, live: bool, n: nat)
    requires Accounts(r, log, known, lost, live) && n <= |known|
    ensures Accounts(r, log, known[..n], lost, false)
  {
  }

  lemma ReceiveAccounts(r: Request, s: Stream, log: seq<Event>, sub: Sub, ev: Event)
    requires s.phase.Live? && s.phase.sub.queue == [ev] + sub.queue && s.after == LastNumber(s.handled, r.start)
    requires Accounts(r, log, Known(r, s), s.lost, true)
    ensures var t := Handle(s, sub, ev); Accounts(r, log, Known(r, t), t.lost, t.phase.Live?)
  {
    var known := Known(r, s);
    assert forall k :: 0 <= k < |s.handled| ==> known[k] == s.handled[k];
    NextIsPast(r.start, s.handled, ev, sub.queue);
    ReceiveKnown(r, s, sub, ev);
    if Handle(s, sub, ev).phase.Stopped? {
      AccountsPrefix(r, log, known, s.lost, true, |s.handled| + 1);
    }
  }

  lemma ReceiveOrder(r: Request, s: Stream, sub: Sub, ev: Event)
    requires s.phase.Live? && Ordered(r, s) && EndsRight(s) && sub.run == r.run
    ensures Ordered(r, Handle(s, sub, ev)) && EndsRight(Handle(s, sub, ev))
  {
  }

  lemma ReceiveKeeps(r: Request, s: System)
    requires Inv(r, s) && Enabled(r, s, Receive)
    ensures Inv(r, Apply(r, s, Receive))
  {
    var sub := s.stream.phase.sub;
    var rest := sub.(queue := sub.queue[1..]);
    assert sub.queue == [sub.queue[0]] + rest.queue;
    ReceiveAccounts(r, s.stream, s.log, rest, sub.queue[0]);
    ReceiveOrder(r, s.stream, rest, sub.queue[0]);
  }

  lemma DisconnectKeeps(r: Request, s: System)
    requires Inv(r, s)
    ensures Inv(r, Apply(r, s, Disconnect))
  {
    AccountsPrefix(r, s.log, Known(r, s.stream), s.stream.lost, s.stream.phase.Live?, |s.stream.handled|);
    assert Known(r, s.stream)[..|s.stream.handled|] == s.stream.handled + [];
  }

  lemma StepKeeps(r: Request, s: System, step: Step)
    requires Inv(r, s) && Enabled(r, s, step)
    ensures Inv(r, Apply(r, s, step))
  {
    match step
    case Append(ev) => AppendKeeps(r, s, ev);
    case Drain => DrainKeeps(r, s);
    case Subscribe => SubscribeKeeps(r, s);
    case Receive => ReceiveKeeps(r, s);
    case Disconnect => DisconnectKeeps(r, s);
  }

  lemma {:induction false} RunKeeps(r: Request, s: System, steps: seq<Step>)
    requires Inv(r, s) && IsRun(r, s, steps)
    ensures Inv(r, After(r, s, steps))
    decreases |steps|
  {
    if steps != [] {
      StepKeeps(r, s, steps[0]);
      RunKeeps(r, Apply(r, s, steps[0]), steps[1..]);
    }
  }

  // ---- What the client sees ----

  /**
   * Whatever is appended meanwhile, a stream handles events of its run only, after the
   * number asked for and with strictly increasing numbers; and unless its channel dropped
   * an event it skips none.
   */
  lemma StreamInOrder(r: Request, log: seq<Event>, steps: seq<Step>)
    requires LogFits(r, log) && IsRun(r, Init(r, log), steps)
    ensures var s := After(r, Init(r, log), steps);
            && Rising(r, s.log, s.stream.handled)
            && (s.stream.lost == 0 ==> s.stream.handled <= Wanted(r, s.log))
  {
    WantedRises(r, log);
    RunKeeps(r, Init(r, log), steps);
    var s := After(r, Init(r, log), steps);
    var known := s.stream.handled + Pending(r, s.stream);
    assert forall k :: 0 <= k < |s.stream.handled| ==> known[k] == s.stream.handled[k];
  }

  /** A live stream with nothing left to receive has handled every event asked for, exactly if its channel dropped none of them. */
  lemma CaughtUpExactlyWithoutLoss(r: Request, log: seq<Event>, steps: seq<Step>)
    requires LogFits(r, log) && IsRun(r, Init(r, log), steps)
    ensures var s := After(r, Init(r, log), steps);
            s.stream.phase.Live? && s.stream.phase.sub.queue == [] ==>
              (s.stream.handled == Wanted(r, s.log) <==> s.stream.lost == 0)
  {
    WantedRises(r, log);
    RunKeeps(r, Init(r, log), steps);
    var s := After(r, Init(r, log), steps);
    assert s.stream.handled + [] == s.stream.handled;
  }

  /** A stream ends by itself only with an event that ends the run, and once live never goes past one. */
  lemma EndsWithTheRun(r: Request, log: seq<Event>, steps: seq<Step>)
    requires LogFits(r, log) && IsRun(r, Init(r, log), steps)
    ensures var s := After(r, Init(r, log), steps).stream;
            && (s.phase == Stopped(true) ==> EndsLast(s.handled))
            && forall k :: s.drained <= k < |s.handled| && EndsRun(s.handled[k]) ==> k == |s.handled| - 1 && s.phase.Stopped?
  {
    WantedRises(r, log);
    RunKeeps(r, Init(r, log), steps);
  }
}
