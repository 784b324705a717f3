/**
 * Recording and its use: the events of a task, what re-execution collects from them, and
 * the replayer and tool replay that answer from it.
 */
module Recording {
  import opened Wrappers
  import opened Collections
  import opened AgentLoop

  // ---- Queues by key ----

  function Queue<K, V>(m: map<K, seq<V>>, key: K): seq<V> {
    if key in m then m[key] else []
  }

  /** All recorded replies to a request, in recorded order. */
  function RepliesTo(exchanges: seq<Exchange>, req: Request): seq<Response> {
    if exchanges == [] then []
    else (if exchanges[0].request == req then [exchanges[0].response] else []) + RepliesTo(exchanges[1..], req)
  }

  lemma {:induction false} RepliesPush(exchanges: seq<Exchange>, ex: Exchange, req: Request)
    ensures RepliesTo(exchanges + [ex], req) == RepliesTo(exchanges, req) + if ex.request == req then [ex.response] else []
  {
    if exchanges == [] {
      assert exchanges + [ex] == [ex] && [ex][1..] == [];
    } else {
      assert (exchanges + [ex])[1..] == exchanges[1..] + [ex];
      RepliesPush(exchanges[1..], ex, req);
    }
  }

  /** Taking the first reply to one request leaves the replies to the others. */
  lemma {:induction false} RepliesTaken(exchanges: seq<Exchange>, req: Request, other: Request)
    ensures RepliesTo(exchanges, req) == [] <==> ReplyTo(exchanges, req).None?
    ensures RepliesTo(exchanges, req) != [] ==> ReplyTo(exchanges, req) == Some(RepliesTo(exchanges, req)[0])
    ensures RepliesTo(WithoutReply(exchanges, req), other) ==
              if other == req && RepliesTo(exchanges, req) != [] then RepliesTo(exchanges, req)[1..] else RepliesTo(exchanges, other)
    ensures |WithoutReply(exchanges, req)| == |exchanges| - if ReplyTo(exchanges, req).Some? then 1 else 0
  {
    if exchanges != [] && exchanges[0].request != req {
      RepliesTaken(exchanges[1..], req, other);
      assert ([exchanges[0]] + WithoutReply(exchanges[1..], req))[1..] == WithoutReply(exchanges[1..], req);
    }
  }

  function CountFor(exchanges: seq<Exchange>, reqs: set<Request>): nat {
    if exchanges == [] then 0 else (if exchanges[0].request in reqs then 1 else 0) + CountFor(exchanges[1..], reqs)
  }

  lemma {:induction false} CountOneMore(exchanges: seq<Exchange>, reqs: set<Request>, req: Request)
    requires req !in reqs
    ensures CountFor(exchanges, reqs + {req}) == CountFor(exchanges, reqs) + |RepliesTo(exchanges, req)|
  {
    if exchanges != [] {
      CountOneMore(exchanges[1..], reqs, req);
    }
  }

  lemma {:induction false} CountNoneOrAll(exchanges: seq<Exchange>, reqs: set<Request>)
    ensures CountFor(exchanges, {}) == 0
    ensures (forall req :: RepliesTo(exchanges, req) != [] ==> req in reqs) ==> CountFor(exchanges, reqs) == |exchanges|
  {
    if exchanges != [] {
      assert RepliesTo(exchanges, exchanges[0].request) != [];
      assert forall req :: RepliesTo(exchanges[1..], req) != [] ==> RepliesTo(exchanges, req) != [];
      CountNoneOrAll(exchanges[1..], reqs);
    }
  }

  /** The model provider that answers from records. */
  class Replayer {
    var pending: map<Request, seq<Response>>
    /** The exchanges not used yet, in recorded order. */
    ghost var left: seq<Exchange>

    ghost predicate Valid()
      reads this
    {
      forall req :: Queue(pending, req) == RepliesTo(left, req)
    }

    /** NewReplayer. */
    constructor (exchanges: seq<Exchange>)
      ensures Valid() && left == exchanges
    {
      pending, left := map[], [];
      new;
      for i := 0 to |exchanges|
        invariant Valid() && left == exchanges[..i]
      {
        Add(exchanges[i]);
      }
      assert exchanges[..|exchanges|] == exchanges;
    }

    method Add(ex: Exchange)
      requires Valid()
      modifies this
      ensures Valid() && left == old(left) + [ex]
    {
      forall req ensures RepliesTo(left + [ex], req) == RepliesTo(left, req) + if ex.request == req then [ex.response] else [] {
        RepliesPush(left, ex, req);
      }
      pending := pending[ex.request := Queue(pending, ex.request) + [ex.response]];
      left := left + [ex];
    }

    /** The first unused reply to an identical request; None is ErrNoFixture. */
    method Chat(req: Request) returns (reply: Option<Response>)
      requires Valid()
      modifies this
      ensures Valid() && reply == ReplyTo(old(left), req) && left == WithoutReply(old(left), req)
    {
      var q := Queue(pending, req);
      forall other
        ensures RepliesTo(WithoutReply(left, req), other) ==
                  if other == req && RepliesTo(left, req) != [] then RepliesTo(left, req)[1..] else RepliesTo(left, other)
      {
        RepliesTaken(left, req, other);
      }
      RepliesTaken(left, req, req);
      left := WithoutReply(left, req);
      if |q| == 0 {
        return None;
      }
      pending := pending[req := q[1..]];
      return Some(q[0]);
    }

    /** How many recorded responses were never requested. */
    method Remaining() returns (n: nat)
      requires Valid()
      ensures n == |left|
    {
      n := 0;
      var keys, done: set<Request> := pending.Keys, {};
      CountNoneOrAll(left, pending.Keys);
      while keys != {}
        invariant keys + done == pending.Keys && keys !! done
        invariant n == CountFor(left, done)
        decreases |keys|
      {
        var req :| req in keys;
        CountOneMore(left, done, req);
        n := n + |pending[req]|;
        keys, done := keys - {req}, done + {req};
        assert Queue(pending, req) == RepliesTo(left, req);
      }
      assert done == pending.Keys;
    }
  }

  function ResultsFor(results: seq<ToolRecord>, key: ToolKey): seq<Recorded> {
    if results == [] then []
    else (if results[0].key == key then [results[0].result] else []) + ResultsFor(results[1..], key)
  }

  lemma {:induction false} ResultsTaken(results: seq<ToolRecord>, key: ToolKey, other: ToolKey)
    ensures ResultsFor(results, key) == [] <==> ResultOf(results, key).None?
    ensures ResultsFor(results, key) != [] ==> ResultOf(results, key) == Some(ResultsFor(results, key)[0])
    ensures ResultsFor(WithoutResult(results, key), other) ==
              if other == key && ResultsFor(results, key) != [] then ResultsFor(results, key)[1..] else ResultsFor(results, other)
  {
    if results != [] && results[0].key != key {
      ResultsTaken(results[1..], key, other);
      assert ([results[0]] + WithoutResult(results[1..], key))[1..] == WithoutResult(results[1..], key);
    }
  }

  /** The tool executor that answers from records. */
  class ToolReplay {
    var results: map<ToolKey, seq<Recorded>>
    /** The results not used yet, in recorded order. */
    ghost var left: seq<ToolRecord>

    ghost predicate Valid()
      reads this
    {
      forall key :: Queue(results, key) == ResultsFor(left, key)
    }

    constructor ()
      ensures Valid() && left == []
    {
      results, left := map[], [];
    }

    /** recordedOutputs, for one completed tool call. */
    method Add(key: ToolKey, result: Recorded)
      requires Valid()
      modifies this
      ensures Valid() && left == old(left) + [ToolRecord(key, result)]
    {
      forall other ensures ResultsFor(left + [ToolRecord(key, result)], other) == ResultsFor(left, other) + if other == key then [result] else [] {
        ResultsPush(left, ToolRecord(key, result), other);
      }
      results := results[key := Queue(results, key) + [result]];
      left := left + [ToolRecord(key, result)];
    }

    method Execute(key: ToolKey) returns (o: Outcome)
      requires Valid()
      modifies this
      ensures Valid() && left == WithoutResult(old(left), key)
      ensures o == match ResultOf(old(left), key) case None => Error(NOT_RECORDED) case Some(r) => Replayed(r)
    {
      var q := Queue(results, key);
      forall other
        ensures ResultsFor(WithoutResult(left, key), other) ==
                  if other == key && ResultsFor(left, key) != [] then ResultsFor(left, key)[1..] else ResultsFor(left, other)
      {
        ResultsTaken(left, key, other);
      }
      ResultsTaken(left, key, key);
      left := WithoutResult(left, key);
      if |q| == 0 {
        return Error(NOT_RECORDED);
      }
      results := results[key := q[1..]];
      var r := q[0];
      if r.fatal == "budget_exceeded" {
        return Fatal("budget_exceeded", r.err);
      }
      if r.fatal == "loop_detected" || r.fatal == "paused" {
        return Fatal("loop_detected", r.err);
      }
      if r.err != "" {
        return Error(r.err);
      }
      return Output(r.output);
    }
  }

  lemma {:induction false} ResultsPush(results: seq<ToolRecord>, r: ToolRecord, key: ToolKey)
    ensures ResultsFor(results + [r], key) == ResultsFor(results, key) + if r.key == key then [r.result] else []
  {
    if results == [] {
      assert results + [r] == [r] && [r][1..] == [];
    } else {
      assert (results + [r])[1..] == results[1..] + [r];
      ResultsPush(results[1..], r, key);
    }
  }

  // ---- What the events of a task hold ----

  /** Events carry a step id; a request or response that is not stored cannot be replayed. */
  datatype Event =
    | ModelStarted(step: nat, request: Option<Request>)
    | ModelCompleted(step: nat, response: Option<Response>)
    | ToolScheduled(step: nat, key: ToolKey)
    | ToolCompleted(step: nat, result: Recorded)
    | OtherEvent

  datatype Collected = Collected(
    requests: map<nat, Request>,
    inputs: map<nat, ToolKey>,
    exchanges: seq<Exchange>,
    results: seq<ToolRecord>)

  const NO_REQUEST: Request := Request([], [], None)

  function Absorb(c: Collected, ev: Event): Option<Collected> {
    match ev
    case ModelStarted(step, request) => if request.None? then None else Some(c.(requests := c.requests[step := request.value]))
    case ModelCompleted(step, response) =>
      if response.None? then None
      else
        var request := if step in c.requests then c.requests[step] else NO_REQUEST;
        Some(c.(exchanges := c.exchanges + [Exchange(request, response.value)]))
    case ToolScheduled(step, key) => Some(c.(inputs := c.inputs[step := key]))
    case ToolCompleted(step, result) =>
      Some(if step in c.inputs then c.(results := c.results + [ToolRecord(c.inputs[step], result)]) else c)
    case OtherEvent => Some(c)
  }

  function Collect(c: Collected, events: seq<Event>): Option<Collected>
    decreases |events|
  {
    if events == [] then Some(c)
    else
      match Absorb(c, events[0])
      case None => None
      case Some(c') => Collect(c', events[1..])
  }

  const NOTHING: Collected := Collected(map[], map[], [], [])

  // ---- What is collected, event by event ----

  /** A model call whose request, or response, is not stored. */
  predicate Unreadable(ev: Event) {
    (ev.ModelStarted? && ev.request.None?) || (ev.ModelCompleted? && ev.response.None?)
  }

  /** The request with which this step was last started before the k-th event. */
  function RequestBefore(events: seq<Event>, k: nat, step: nat): Request
    requires k <= |events|
  {
    if k == 0 then NO_REQUEST
    else if events[k - 1].ModelStarted? && events[k - 1].step == step && events[k - 1].request.Some? then events[k - 1].request.value
    else RequestBefore(events, k - 1, step)
  }

  /** The tool and input with which this step was last scheduled before the k-th event. */
  function KeyBefore(events: seq<Event>, k: nat, step: nat): Option<ToolKey>
    requires k <= |events|
  {
    if k == 0 then None
    else if events[k - 1].ToolScheduled? && events[k - 1].step == step then Some(events[k - 1].key)
    else KeyBefore(events, k - 1, step)
  }

  /** Each stored response among the first k events, with its step's request. */
  function StoredExchanges(events: seq<Event>, k: nat): seq<Exchange>
    requires k <= |events|
  {
    if k == 0 then []
    else
      var ev := events[k - 1];
      StoredExchanges(events, k - 1)
      + if ev.ModelCompleted? && ev.response.Some? then [Exchange(RequestBefore(events, k - 1, ev.step), ev.response.value)] else []
  }

  /** Each tool result among the first k events whose step was scheduled, with its tool and input. */
  function StoredResults(events: seq<Event>, k: nat): seq<ToolRecord>
    requires k <= |events|
  {
    if k == 0 then []
    else
      var ev := events[k - 1];
      StoredResults(events, k - 1)
      + if ev.ToolCompleted? && KeyBefore(events, k - 1, ev.step).Some? then [ToolRecord(KeyBefore(events, k - 1, ev.step).value, ev.result)]
        else []
  }

  /** What has been collected from the first k events. */
  ghost predicate CollectedAt(c: Collected, events: seq<Event>, k: nat)
    requires k <= |events|
  {
    && c.exchanges == StoredExchanges(events, k) && c.results == StoredResults(events, k)
    && (forall step: nat :: RequestBefore(events, k, step) == if step in c.requests then c.requests[step] else NO_REQUEST)
    && forall step: nat :: KeyBefore(events, k, step) == if step in c.inputs then Some(c.inputs[step]) else None
  }

  lemma AbsorbCollects(c: Collected, events: seq<Event>, k: nat)
    requires k < |events| && CollectedAt(c, events, k)
    ensures Absorb(c, events[k]).None? <==> Unreadable(events[k])
    ensures !Unreadable(events[k]) ==> CollectedAt(Absorb(c, events[k]).value, events, k + 1)
  {
    if !Unreadable(events[k]) {
      var d := Absorb(c, events[k]).value;
      forall step: nat ensures RequestBefore(events, k + 1, step) == if step in d.requests then d.requests[step] else NO_REQUEST {
      }
      forall step: nat ensures KeyBefore(events, k + 1, step) == if step in d.inputs then Some(d.inputs[step]) else None {
      }
      Unit(c.exchanges);
      Unit(c.results);
    }
  }

  lemma {:induction false} CollectsFrom(c: Collected, events: seq<Event>, k: nat)
    requires k <= |events| && CollectedAt(c, events, k)
    ensures Collect(c, events[k..]).None? <==> exists j :: k <= j < |events| && Unreadable(events[j])
    ensures Collect(c, events[k..]).Some? ==> CollectedAt(Collect(c, events[k..]).value, events, |events|)
    decreases |events| - k
  {
    if k < |events| {
      AbsorbCollects(c, events, k);
      assert events[k..][0] == events[k] && events[k..][1..] == events[k + 1..];
      if !Unreadable(events[k]) {
        CollectsFrom(Absorb(c, events[k]).value, events, k + 1);
      }
    }
  }

  /**
   * From any list of events, collecting fails exactly if some model call's request or
   * response is not stored; otherwise it gives each response with the request its step was
   * last started with, and each result of a scheduled step with its tool and input, in the
   * order of the events.
   */
  lemma CollectsWhatIsStored(events: seq<Event>)
    ensures var all := Collect(NOTHING, events);
            && (all.None? <==> exists j :: 0 <= j < |events| && Unreadable(events[j]))
            && (all.Some? ==> all.value.exchanges == StoredExchanges(events, |events|) && all.value.results == StoredResults(events, |events|))
  {
    CollectsFrom(NOTHING, events, 0);
    assert events[0..] == events;
  }

  /** recordedOutputs: None is ErrNotRecorded. */
  method RecordedOutputs(events: seq<Event>) returns (replayer: Option<Replayer>, tools: ToolReplay)
    ensures replayer.Some? <==> Collect(NOTHING, events).Some?
    ensures replayer.Some? ==> replayer.value.Valid() && replayer.value.left == Collect(NOTHING, events).value.exchanges
    ensures replayer.Some? ==> tools.Valid() && tools.left == Collect(NOTHING, events).value.results
  {
    var requests: map<nat, Request>, inputs: map<nat, ToolKey>, exchanges: seq<Exchange> := map[], map[], [];
    tools := new ToolReplay();
    assert events[0..] == events;
    for i := 0 to |events|
      invariant fresh(tools) && tools.Valid()
      invariant Collect(NOTHING, events) == Collect(Collected(requests, inputs, exchanges, tools.left), events[i..])
    {
      assert events[i..][0] == events[i] && events[i..][1..] == events[i + 1..];
      match events[i] {
        case ModelStarted(step, request) =>
          if request.None? {
            return None, tools;
          }
          requests := requests[step := request.value];
        case ModelCompleted(step, response) =>
          if response.None? {
            return None, tools;
          }
          exchanges := exchanges + [Exchange(if step in requests then requests[step] else NO_REQUEST, response.value)];
        case ToolScheduled(step, key) =>
          inputs := inputs[step := key];
        case ToolCompleted(step, result) =>
          if step in inputs {
            tools.Add(inputs[step], result);
          }
        case OtherEvent =>
      }
    }
    var r := new Replayer(exchanges);
    replayer := Some(r);
  }

  // ---- The events a task emits ----

  function Scheduled(ran: seq<Invocation>, step: nat): seq<Event> {
    if ran == [] then [] else [ToolScheduled(step, ran[0].key)] + Scheduled(ran[1..], step + 1)
  }

  function Completed(cfg: Config, ran: seq<Invocation>, step: nat): seq<Event> {
    if ran == [] then [] else [ToolCompleted(step, Record(cfg, ran[0].outcome))] + Completed(cfg, ran[1..], step + 1)
  }

  function StepsOf(rec: Rec): nat {
    if rec.Called? then 1 else |rec.ran|
  }

  /** All calls of a reply are scheduled before the first completes. */
  function EventsOf(cfg: Config, rec: Rec, step: nat): seq<Event> {
    match rec
    case Called(_, request, response) => [ModelStarted(step, Some(request)), ModelCompleted(step, Some(response))]
    case Ran(ran) => Scheduled(ran, step) + Completed(cfg, ran, step)
  }

  /** Every model call and tool call is a step of its own. */
  function Emitted(cfg: Config, recs: seq<Rec>, step: nat): seq<Event> {
    if recs == [] then [] else EventsOf(cfg, recs[0], step) + Emitted(cfg, recs[1..], step + StepsOf(recs[0]))
  }

  function ExchangeOf(rec: Rec): seq<Exchange> {
    if rec.Called? then [Exchange(rec.request, rec.response)] else []
  }

  function ExchangesOf(recs: seq<Rec>): seq<Exchange> {
    if recs == [] then []
    else ExchangeOf(recs[0]) + ExchangesOf(recs[1..])
  }

  function RecordsOf(cfg: Config, ran: seq<Invocation>): seq<ToolRecord> {
    if ran == [] then [] else [ToolRecord(ran[0].key, Record(cfg, ran[0].outcome))] + RecordsOf(cfg, ran[1..])
  }

  function ResultsIn(cfg: Config, rec: Rec): seq<ToolRecord> {
    if rec.Ran? then RecordsOf(cfg, rec.ran) else []
  }

  function ResultsOf(cfg: Config, recs: seq<Rec>): seq<ToolRecord> {
    if recs == [] then [] else ResultsIn(cfg, recs[0]) + ResultsOf(cfg, recs[1..])
  }

  lemma {:induction false} CollectConcat(c: Collected, a: seq<Event>, b: seq<Event>)
    ensures Collect(c, a + b) == match Collect(c, a) case None => None case Some(c') => Collect(c', b)
    decreases |a|
  {
    if a == [] {
      assert a + b == b;
    } else {
      assert (a + b)[1..] == a[1..] + b;
      match Absorb(c, a[0])
      case None =>
      case Some(c') => CollectConcat(c', a[1..], b);
    }
  }

  /** The inputs of these calls are known by their step. */
  predicate Knows(inputs: map<nat, ToolKey>, ran: seq<Invocation>, step: nat) {
    forall s: nat :: step <= s < step + |ran| ==> s in inputs && inputs[s] == ran[s - step].key
  }

  function InputsWith(inputs: map<nat, ToolKey>, ran: seq<Invocation>, step: nat): map<nat, ToolKey>
    decreases |ran|
  {
    if ran == [] then inputs else InputsWith(inputs[step := ran[0].key], ran[1..], step + 1)
  }

  lemma {:induction false} InputsKnown(inputs: map<nat, ToolKey>, ran: seq<Invocation>, step: nat)
    ensures forall s: nat :: s < step && s in inputs ==> s in InputsWith(inputs, ran, step) && InputsWith(inputs, ran, step)[s] == inputs[s]
    ensures Knows(InputsWith(inputs, ran, step), ran, step)
    decreases |ran|
  {
    if ran != [] {
      InputsKnown(inputs[step := ran[0].key], ran[1..], step + 1);
      assert step in inputs[step := ran[0].key];
    }
  }

  lemma {:induction false} CollectScheduled(c: Collected, ran: seq<Invocation>, step: nat)
    ensures Collect(c, Scheduled(ran, step)) == Some(c.(inputs := InputsWith(c.inputs, ran, step)))
    decreases |ran|
  {
    if ran != [] {
      CollectScheduled(c.(inputs := c.inputs[step := ran[0].key]), ran[1..], step + 1);
      assert ([ToolScheduled(step, ran[0].key)] + Scheduled(ran[1..], step + 1))[1..] == Scheduled(ran[1..], step + 1);
    }
  }

  lemma {:induction false} CollectCompleted(cfg: Config, c: Collected, ran: seq<Invocation>, step: nat)
    requires Knows(c.inputs, ran, step)
    ensures Collect(c, Completed(cfg, ran, step)) == Some(c.(results := c.results + RecordsOf(cfg, ran)))
    decreases |ran|
  {
    if ran == [] {
      assert c.results + [] == c.results;
    } else {
      var r := ToolRecord(ran[0].key, Record(cfg, ran[0].outcome));
      assert step in c.inputs && c.inputs[step] == ran[0].key;
      var d := c.(results := c.results + [r]);
      assert Absorb(c, ToolCompleted(step, r.result)) == Some(d);
      CollectCompleted(cfg, d, ran[1..], step + 1);
      assert ([ToolCompleted(step, r.result)] + Completed(cfg, ran[1..], step + 1))[1..] == Completed(cfg, ran[1..], step + 1);
      Assoc(c.results, [r], RecordsOf(cfg, ran[1..]));
    }
  }

  /** What a record adds to what is collected. */
  function Gather(cfg: Config, c: Collected, rec: Rec, step: nat): Collected {
    match rec
    case Called(_, request, response) =>
      c.(requests := c.requests[step := request], exchanges := c.exchanges + [Exchange(request, response)])
    case Ran(ran) => c.(inputs := InputsWith(c.inputs, ran, step), results := c.results + RecordsOf(cfg, ran))
  }

  function GatherAll(cfg: Config, c: Collected, recs: seq<Rec>, step: nat): Collected
    decreases |recs|
  {
    if recs == [] then c else GatherAll(cfg, Gather(cfg, c, recs[0], step), recs[1..], step + StepsOf(recs[0]))
  }

  lemma CollectRec(cfg: Config, c: Collected, rec: Rec, step: nat)
    ensures Collect(c, EventsOf(cfg, rec, step)) == Some(Gather(cfg, c, rec, step))
  {
    match rec
    case Called(_, request, response) =>
      var started, completed := ModelStarted(step, Some(request)), ModelCompleted(step, Some(response));
      var c' := c.(requests := c.requests[step := request]);
      assert [started, completed][1..] == [completed] && [completed][1..] == [];
      assert Collect(c', [completed]) == Some(Gather(cfg, c, rec, step));
    case Ran(ran) =>
      CollectScheduled(c, ran, step);
      InputsKnown(c.inputs, ran, step);
      CollectCompleted(cfg, c.(inputs := InputsWith(c.inputs, ran, step)), ran, step);
      CollectConcat(c, Scheduled(ran, step), Completed(cfg, ran, step));
  }

  lemma {:induction false} CollectIsGather(cfg: Config, c: Collected, recs: seq<Rec>, step: nat)
    ensures Collect(c, Emitted(cfg, recs, step)) == Some(GatherAll(cfg, c, recs, step))
    decreases |recs|
  {
    if recs != [] {
      var next := step + StepsOf(recs[0]);
      CollectRec(cfg, c, recs[0], step);
      CollectConcat(c, EventsOf(cfg, recs[0], step), Emitted(cfg, recs[1..], next));
      CollectIsGather(cfg, Gather(cfg, c, recs[0], step), recs[1..], next);
    }
  }

  lemma {:induction false} GatherAddsUp(cfg: Config, c: Collected, recs: seq<Rec>, step: nat)
    ensures GatherAll(cfg, c, recs, step).exchanges == c.exchanges + ExchangesOf(recs)
    ensures GatherAll(cfg, c, recs, step).results == c.results + ResultsOf(cfg, recs)
    decreases |recs|
  {
    Unit(c.exchanges);
    Unit(c.results);
    if recs != [] {
      GatherAddsUp(cfg, Gather(cfg, c, recs[0], step), recs[1..], step + StepsOf(recs[0]));
      Assoc(c.exchanges, ExchangeOf(recs[0]), ExchangesOf(recs[1..]));
      Assoc(c.results, ResultsIn(cfg, recs[0]), ResultsOf(cfg, recs[1..]));
    }
  }

  /** Re-execution collects from a task's events exactly its model exchanges and its tool results, in order. */
  lemma CollectEmitted(cfg: Config, recs: seq<Rec>, step: nat)
    ensures var c := Collect(NOTHING, Emitted(cfg, recs, step));
            c.Some? && c.value.exchanges == ExchangesOf(recs) && c.value.results == ResultsOf(cfg, recs)
  {
    CollectIsGather(cfg, NOTHING, recs, step);
    GatherAddsUp(cfg, NOTHING, recs, step);
    Unit(ExchangesOf(recs));
    Unit(ResultsOf(cfg, recs));
  }

  lemma {:induction false} OthersIgnored(c: Collected, events: seq<Event>)
    ensures Collect(c, events) == Collect(c, Relevant(events))
    decreases |events|
  {
    if events != [] {
      if events[0].OtherEvent? {
        OthersIgnored(c, events[1..]);
        assert [] + Relevant(events[1..]) == Relevant(events[1..]);
      } else {
        assert ([events[0]] + Relevant(events[1..]))[1..] == Relevant(events[1..]);
        match Absorb(c, events[0])
        case None =>
        case Some(c') => OthersIgnored(c', events[1..]);
      }
    }
  }

  /** The events that re-execution reads. */
  function Relevant(events: seq<Event>): seq<Event> {
    if events == [] then [] else (if events[0].OtherEvent? then [] else [events[0]]) + Relevant(events[1..])
  }
}
