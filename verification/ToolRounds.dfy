/**
 * The tool calls of one reply when they run at once: in whatever order they end, the round
 * is one that running them one at a time can give.
 */
module ToolRounds {
  import opened Wrappers
  import opened Collections
  import opened AgentLoop
  import opened AgentShape
  import FanIn

  /** What each call ends with: a refused call with its refusal, any other with anything. */
  predicate EndsOf(cfg: Config, calls: seq<ToolCall>, ends: seq<Outcome>) {
    && |ends| == |calls|
    && forall k :: 0 <= k < |calls| && cfg.refusal(KeyOf(calls[k])).Some? ==> ends[k] == Error(cfg.refusal(KeyOf(calls[k])).value)
  }

  /** The outcomes of the calls that are executed, in call order. */
  function Executed(cfg: Config, calls: seq<ToolCall>, ends: seq<Outcome>): seq<Outcome>
    requires |ends| == |calls|
  {
    if calls == [] then []
    else (if cfg.refusal(KeyOf(calls[0])).Some? then [] else [ends[0]]) + Executed(cfg, calls[1..], ends[1..])
  }

  /** What a call sends to the end of runToolCalls: a message for the model, or the error that fails the task. */
  function Sent(cfg: Config, call: ToolCall, end: Outcome): Result<Message> {
    if end.Fatal? then Err(end.message) else Ok(ToolMessage(cfg, call, end))
  }

  function AllSent(cfg: Config, calls: seq<ToolCall>, ends: seq<Outcome>): (r: seq<Result<Message>>)
    requires |ends| == |calls|
    ensures |r| == |calls| && forall k :: 0 <= k < |calls| ==> r[k] == Sent(cfg, calls[k], ends[k])
  {
    if calls == [] then [] else [Sent(cfg, calls[0], ends[0])] + AllSent(cfg, calls[1..], ends[1..])
  }

  lemma EndsOfRest(cfg: Config, calls: seq<ToolCall>, ends: seq<Outcome>)
    requires EndsOf(cfg, calls, ends) && calls != []
    ensures EndsOf(cfg, calls[1..], ends[1..])
  {
    forall k | 0 <= k < |calls[1..]| && cfg.refusal(KeyOf(calls[1..][k])).Some?
      ensures ends[1..][k] == Error(cfg.refusal(KeyOf(calls[1..][k])).value)
    {
      assert calls[k + 1] == calls[1..][k] && ends[k + 1] == ends[1..][k];
    }
  }

  /** What the calls send, taken in call order, is what running them one at a time with the same ends gives. */
  lemma {:induction false} SentIsRun(cfg: Config, replies: seq<Response>, calls: seq<ToolCall>, ends: seq<Outcome>, later: seq<Outcome>)
    requires EndsOf(cfg, calls, ends)
    ensures var done := RunCalls(cfg, Live(replies, Executed(cfg, calls, ends) + later), calls);
            var all := FanIn.InCallOrder(AllSent(cfg, calls, ends));
            && done.env == Live(replies, later)
            && (all.Ok? <==> done.ok) && (all.Ok? ==> all.value == done.messages)
    decreases |calls|
  {
    var outs := Executed(cfg, calls, ends);
    if calls == [] {
      Unit(later);
    } else {
      EndsOfRest(cfg, calls, ends);
      var rest := Executed(cfg, calls[1..], ends[1..]);
      SentIsRun(cfg, replies, calls[1..], ends[1..], later);
      if cfg.refusal(KeyOf(calls[0])).Some? {
        Unit(rest);
      } else {
        TailOfConcat([ends[0]] + rest, later, 1);
        assert ([ends[0]] + rest)[1..] == rest;
      }
      assert RunCall(cfg, Live(replies, outs + later), calls[0]) == (ends[0], Live(replies, rest + later));
      assert AllSent(cfg, calls, ends)[1..] == AllSent(cfg, calls[1..], ends[1..]);
    }
  }

  /**
   * The end of runToolCalls for calls that ran at once: whatever the order in which they
   * ended, it gives the messages, or the failure, that `RunCalls` gives with the same ends.
   */
  method FinishRound(cfg: Config, calls: seq<ToolCall>, arrivals: seq<FanIn.Indexed<Message>>,
                     ghost ends: seq<Outcome>, ghost replies: seq<Response>, ghost later: seq<Outcome>)
    returns (r: Result<seq<Message>>)
    requires EndsOf(cfg, calls, ends) && FanIn.EachOnce(arrivals, |calls|)
    requires forall k :: 0 <= k < |arrivals| ==> arrivals[k].item == Sent(cfg, calls[arrivals[k].idx], ends[arrivals[k].idx])
    ensures var done := RunCalls(cfg, Live(replies, Executed(cfg, calls, ends) + later), calls);
            && done.env == Live(replies, later)
            && (r.Ok? <==> done.ok) && (r.Ok? ==> r.value == done.messages)
  {
    SentIsRun(cfg, replies, calls, ends, later);
    r := FanIn.CollectToolResults(arrivals, AllSent(cfg, calls, ends));
  }

  /** The list of messages after a reply whose calls ran at once keeps its shape. */
  lemma ParallelRoundIsShaped(cfg: Config, prefix: seq<Message>, messages: seq<Message>, reply: Response, ends: seq<Outcome>)
    requires Shaped(prefix, messages) && Honest(reply) && reply.calls != [] && EndsOf(cfg, reply.calls, ends)
    requires FanIn.InCallOrder(AllSent(cfg, reply.calls, ends)).Ok?
    ensures var all := FanIn.InCallOrder(AllSent(cfg, reply.calls, ends)).value;
            && Shaped(prefix, messages + [reply.message] + all)
            && Continue(cfg, Task(Live([], Executed(cfg, reply.calls, ends)), messages, []), reply).Next?
            && Continue(cfg, Task(Live([], Executed(cfg, reply.calls, ends)), messages, []), reply).task.messages
               == messages + [reply.message] + all
  {
    var env := Live([], Executed(cfg, reply.calls, ends));
    SentIsRun(cfg, [], reply.calls, ends, []);
    Unit(Executed(cfg, reply.calls, ends));
    ContinueKeeps(cfg, prefix, Task(env, messages, []), reply);
  }
}
