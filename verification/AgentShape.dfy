/**
 * The shape of the message list sent to the model, after any number of tool rounds,
 * rejected answers and compactions.
 */
module AgentShape {
  import opened Wrappers
  import opened Collections
  import opened AgentLoop

  /** One result for each call, in call order. */
  predicate Answers(calls: seq<ToolCall>, messages: seq<Message>) {
    && |messages| == |calls|
    && forall k :: 0 <= k < |calls| ==> messages[k].role.Tool? && messages[k].callId == calls[k].id && messages[k].name == calls[k].name
  }

  /**
   * Rounds of messages after the prompt: a user message; an answer and the user message
   * that rejects it; or a tool-call reply followed at once by its results. A result stands
   * nowhere else.
   */
  predicate Rounds(ms: seq<Message>)
    decreases |ms|
  {
    if ms == [] then true
    else
      match ms[0].role
      case User => Rounds(ms[1..])
      case Assistant =>
        if ms[0].calls == [] then |ms| >= 2 && ms[1].role.User? && Rounds(ms[2..])
        else |ms[0].calls| < |ms| && Answers(ms[0].calls, ms[1..1 + |ms[0].calls|]) && Rounds(ms[1 + |ms[0].calls|..])
      case _ => false
  }

  function RoundLength(ms: seq<Message>): (n: nat)
    requires ms != [] && Rounds(ms)
    ensures 1 <= n <= |ms| && Rounds(ms[n..])
    ensures ms[0].role.Assistant? <==> n > 1
    ensures forall k :: 1 <= k < n ==> !ms[k].role.Assistant?
  {
    if ms[0].role.User? then 1 else if ms[0].calls == [] then 2 else 1 + |ms[0].calls|
  }

  lemma FirstRoundThen(ms: seq<Message>, rest: seq<Message>)
    requires ms != [] && Rounds(ms) && Rounds(ms[RoundLength(ms)..] + rest)
    ensures Rounds(ms + rest)
  {
    var n := RoundLength(ms);
    TailOfConcat(ms, rest, n);
    assert (ms + rest)[0] == ms[0] && (ms + rest)[1..n] == ms[1..n];
  }

  lemma {:induction false} RoundsConcat(a: seq<Message>, b: seq<Message>)
    requires Rounds(a) && Rounds(b)
    ensures Rounds(a + b)
    decreases |a|
  {
    if a == [] {
      assert a + b == b;
    } else {
      RoundsConcat(a[RoundLength(a)..], b);
      FirstRoundThen(a, b);
    }
  }

  lemma FirstRoundAlone(ms: seq<Message>)
    requires ms != [] && Rounds(ms)
    ensures Rounds(ms[..RoundLength(ms)])
  {
    var n := RoundLength(ms);
    assert ms[..n][n..] == [] && ms[..n][1..n] == ms[1..n];
  }

  /** The list may be cut before any reply. */
  lemma {:induction false} RoundsCut(ms: seq<Message>, i: nat)
    requires Rounds(ms) && i < |ms| && ms[i].role.Assistant?
    ensures Rounds(ms[..i]) && Rounds(ms[i..])
    decreases |ms|
  {
    if i == 0 {
      assert ms[i..] == ms && ms[..i] == [];
    } else {
      var n := RoundLength(ms);
      RoundsCut(ms[n..], i - n);
      assert ms[n..][i - n..] == ms[i..];
      FirstRoundAlone(ms);
      RoundsConcat(ms[..n], ms[n..][..i - n]);
      Split(ms[..i], n);
      assert ms[..i][..n] == ms[..n] && ms[..i][n..] == ms[n..][..i - n];
    }
  }

  /** Rounds that hold a reply are at least two messages. */
  lemma {:induction false} RepliesTakeTwo(ms: seq<Message>)
    requires Rounds(ms) && HasReply(ms)
    ensures |ms| >= 2
    decreases |ms|
  {
    if RoundLength(ms) == 1 {
      var i :| 0 <= i < |ms| && ms[i].role.Assistant?;
      assert ms[1..][i - 1] == ms[i];
      RepliesTakeTwo(ms[1..]);
    }
  }

  // ---- The invariant ----

  /** The prefix up to the prompt is unchanged and rounds follow it. */
  predicate Shaped(prefix: seq<Message>, messages: seq<Message>) {
    prefix <= messages && Rounds(messages[|prefix|..])
  }

  /** A reply's message is the model's, and carries the calls the reply asks for. */
  predicate Honest(r: Response) {
    r.message.role.Assistant? && r.message.calls == r.calls
  }

  predicate HonestEnv(env: Env) {
    match env
    case Live(replies, _) => forall k :: 0 <= k < |replies| ==> Honest(replies[k])
    case Replaying(exchanges, _) => forall k :: 0 <= k < |exchanges| ==> Honest(exchanges[k].response)
  }

  predicate ShapedRec(prefix: seq<Message>, rec: Rec) {
    rec.Called? ==> Honest(rec.response) && (rec.purpose.Answering? ==> Shaped(prefix, rec.request.messages))
  }

  predicate ShapedRecs(prefix: seq<Message>, recs: seq<Rec>) {
    forall k :: 0 <= k < |recs| ==> ShapedRec(prefix, recs[k])
  }

  predicate Inv(prefix: seq<Message>, t: Task) {
    HonestEnv(t.env) && Shaped(prefix, t.messages) && ShapedRecs(prefix, t.recs)
  }

  lemma {:induction false} HonestReplayed(exchanges: seq<Exchange>, req: Request)
    requires forall k :: 0 <= k < |exchanges| ==> Honest(exchanges[k].response)
    ensures ReplyTo(exchanges, req).Some? ==> Honest(ReplyTo(exchanges, req).value)
    ensures forall k :: 0 <= k < |WithoutReply(exchanges, req)| ==> Honest(WithoutReply(exchanges, req)[k].response)
  {
    if exchanges != [] {
      HonestReplayed(exchanges[1..], req);
    }
  }

  lemma HonestReply(env: Env, req: Request)
    requires HonestEnv(env)
    ensures HonestEnv(Reply(env, req).1) && (Reply(env, req).0.Some? ==> Honest(Reply(env, req).0.value))
  {
    if env.Replaying? {
      HonestReplayed(env.exchanges, req);
    }
  }

  lemma {:induction false} ResultsAnswer(cfg: Config, env: Env, calls: seq<ToolCall>)
    requires HonestEnv(env)
    ensures Answers(calls, RunCalls(cfg, env, calls).messages) && HonestEnv(RunCalls(cfg, env, calls).env)
    decreases |calls|
  {
    if calls != [] {
      ResultsAnswer(cfg, RunCall(cfg, env, calls[0]).1, calls[1..]);
    }
  }

  lemma AppendRounds(prefix: seq<Message>, messages: seq<Message>, more: seq<Message>)
    requires Shaped(prefix, messages) && Rounds(more)
    ensures Shaped(prefix, messages + more)
  {
    RoundsConcat(messages[|prefix|..], more);
    TailOfConcat(messages, more, |prefix|);
  }

  lemma ToolRound(m: Message, results: seq<Message>)
    requires IsToolReply(m) && Answers(m.calls, results)
    ensures Rounds([m] + results)
  {
    var ms := [m] + results;
    assert ms[1..1 + |m.calls|] == results && ms[1 + |m.calls|..] == [];
  }

  lemma RejectedRound(m: Message, why: string)
    requires m.role.Assistant? && m.calls == []
    ensures Rounds([m, Rejection(why)])
  {
    assert [m, Rejection(why)][2..] == [];
  }

  lemma ToolRoundKeeps(prefix: seq<Message>, messages: seq<Message>, m: Message, results: seq<Message>)
    requires Shaped(prefix, messages) && IsToolReply(m) && Answers(m.calls, results)
    ensures Shaped(prefix, messages + [m] + results)
  {
    ToolRound(m, results);
    AppendRounds(prefix, messages, [m] + results);
    Assoc(messages, [m], results);
  }

  lemma RejectedRoundKeeps(prefix: seq<Message>, messages: seq<Message>, m: Message, why: string)
    requires Shaped(prefix, messages) && m.role.Assistant? && m.calls == []
    ensures Shaped(prefix, messages + [m] + [Rejection(why)])
  {
    RejectedRound(m, why);
    AppendRounds(prefix, messages, [m, Rejection(why)]);
    Assoc(messages, [m], [Rejection(why)]);
    assert [m] + [Rejection(why)] == [m, Rejection(why)];
  }

  lemma ContinueKeeps(cfg: Config, prefix: seq<Message>, t: Task, reply: Response)
    requires Inv(prefix, t) && Honest(reply)
    ensures Continue(cfg, t, reply).Next? ==> Inv(prefix, Continue(cfg, t, reply).task)
    ensures ShapedRecs(prefix, Continue(cfg, t, reply).task.recs)
  {
    if reply.calls != [] {
      ResultsAnswer(cfg, t.env, reply.calls);
      ToolRoundKeeps(prefix, t.messages, reply.message, RunCalls(cfg, t.env, reply.calls).messages);
    } else {
      match cfg.rejection(reply.message.content)
      case None =>
      case Some(why) => RejectedRoundKeeps(prefix, t.messages, reply.message, why);
    }
  }

  lemma RoundsFromPrompt(prefix: seq<Message>, tail: seq<Message>)
    requires Rounds(tail)
    ensures Shaped(prefix, prefix + tail)
  {
    assert (prefix + tail)[|prefix|..] == tail;
  }

  lemma UserThen(m: Message, rest: seq<Message>)
    requires m.role.User? && Rounds(rest)
    ensures Rounds([m] + rest)
  {
    assert ([m] + rest)[1..] == rest;
  }

  /** The older rounds and the latest one, where compaction cuts. */
  lemma CutRounds(prefix: seq<Message>, messages: seq<Message>, cut: nat)
    requires Shaped(prefix, messages) && |prefix| <= cut < |messages| && messages[cut].role.Assistant?
    ensures Rounds(messages[|prefix|..cut]) && Rounds(messages[cut..])
  {
    var tail := messages[|prefix|..];
    RoundsCut(tail, cut - |prefix|);
    assert tail[..cut - |prefix|] == messages[|prefix|..cut] && tail[cut - |prefix|..] == messages[cut..];
  }

  lemma SummarizedShape(prefix: seq<Message>, messages: seq<Message>, cut: nat, summary: string)
    requires Shaped(prefix, messages) && |prefix| < cut < |messages| && IsToolReply(messages[cut]) && HasReply(messages[|prefix|..cut])
    ensures Shaped(prefix, Summarized(messages, |prefix|, cut, summary))
    ensures |Summarized(messages, |prefix|, cut, summary)| < |messages|
  {
    CutRounds(prefix, messages, cut);
    RepliesTakeTwo(messages[|prefix|..cut]);
    var m := UserMessage("Summary of your work on this task so far:\n" + summary);
    UserThen(m, messages[cut..]);
    RoundsFromPrompt(prefix, [m] + messages[cut..]);
    Assoc(prefix, [m], messages[cut..]);
  }

  lemma CompactKeeps(cfg: Config, prefix: seq<Message>, t: Task)
    requires Inv(prefix, t)
    ensures Compact(cfg, t, |prefix|).Ready? ==> Inv(prefix, Compact(cfg, t, |prefix|).task)
    ensures ShapedRecs(prefix, Compact(cfg, t, |prefix|).task.recs)
  {
    var cut := Cut(cfg.compactor, t.messages, |prefix|);
    if cut.Some? && cfg.compactor.On? {
      var req := SummaryRequest(cfg, cfg.compactor.instructions, t.messages[|prefix|..cut.value]);
      HonestReply(t.env, req);
      if Reply(t.env, req).0.Some? {
        SummarizedShape(prefix, t.messages, cut.value, cfg.trim(Reply(t.env, req).0.value.message.content));
      }
    }
  }

  /**
   * A compaction leaves the prefix as it was, puts one summary for the older rounds, keeps
   * the latest tool round verbatim, and strictly shortens the list.
   */
  lemma CompactionShortens(cfg: Config, prefix: seq<Message>, t: Task)
    requires Inv(prefix, t) && Compact(cfg, t, |prefix|).Ready? && Compact(cfg, t, |prefix|).task.messages != t.messages
    ensures var out := Compact(cfg, t, |prefix|).task.messages;
            exists cut ::
              && |prefix| < cut < |t.messages| && IsToolReply(t.messages[cut])
              && (forall j :: cut < j < |t.messages| ==> !IsToolReply(t.messages[j]))
              && |out| == |prefix| + 1 + |t.messages| - cut < |t.messages|
              && prefix <= out && out[|prefix|].role.User? && out[|prefix| + 1..] == t.messages[cut..]
  {
    var cut := Cut(cfg.compactor, t.messages, |prefix|).value;
    var out := Compact(cfg, t, |prefix|).task.messages;
    var req := SummaryRequest(cfg, cfg.compactor.instructions, t.messages[|prefix|..cut]);
    SummarizedShape(prefix, t.messages, cut, cfg.trim(Reply(t.env, req).0.value.message.content));
    assert out[|prefix| + 1..] == t.messages[cut..];
  }

  /** The summary carries what the summarizer replied, trimmed, and that reply is the last thing recorded. */
  lemma SummaryCarriesReply(cfg: Config, prefix: seq<Message>, t: Task, t': Task)
    requires Inv(prefix, t) && Compact(cfg, t, |prefix|) == Ready(t') && t'.messages != t.messages
    ensures t'.recs != [] && |t'.messages| > |prefix|
    ensures var last := t'.recs[|t'.recs| - 1];
            && last.Called? && last.purpose.Summarizing? && cfg.trim(last.response.message.content) != ""
            && t'.messages[|prefix|] ==
                 UserMessage("Summary of your work on this task so far:\n" + cfg.trim(last.response.message.content))
  {
    assert Cut(cfg.compactor, t.messages, |prefix|).Some?;
  }

  lemma RoundKeeps(cfg: Config, prefix: seq<Message>, t: Task)
    requires Inv(prefix, t)
    ensures Round(cfg, t, |prefix|).Next? ==> Inv(prefix, Round(cfg, t, |prefix|).task)
    ensures ShapedRecs(prefix, Round(cfg, t, |prefix|).task.recs)
  {
    CompactKeeps(cfg, prefix, t);
    var c := Compact(cfg, t, |prefix|);
    if c.Ready? {
      HonestReply(c.task.env, MainRequest(cfg, c.task.messages));
      var (reply, asked) := Ask(c.task, Answering, MainRequest(cfg, c.task.messages));
      if reply.Some? {
        ContinueKeeps(cfg, prefix, asked, reply.value);
      }
    }
  }

  lemma LoopTurn(cfg: Config, t: Task, base: nat, n: nat, turn: Turn)
    requires base <= |t.messages| && n > 0 && turn == Round(cfg, t, base)
    ensures base <= |turn.task.messages|
    ensures Loop(cfg, t, base, n) == if turn.Next? then Loop(cfg, turn.task, base, n - 1) else turn
  {
    RoundKeepsBase(cfg, t, base);
  }

  lemma {:induction false} LoopKeeps(cfg: Config, prefix: seq<Message>, t: Task, n: nat, end: Turn)
    requires Inv(prefix, t) && end == Loop(cfg, t, |prefix|, n)
    ensures ShapedRecs(prefix, end.task.recs)
    decreases n
  {
    if n > 0 {
      var turn := Round(cfg, t, |prefix|);
      LoopTurn(cfg, t, |prefix|, n, turn);
      RoundKeeps(cfg, prefix, t);
      if turn.Next? {
        LoopKeeps(cfg, prefix, turn.task, n - 1, end);
      }
    }
  }

  /**
   * Every list of messages a task sends to its model begins with the messages up to the
   * prompt, unchanged, and goes on in rounds, however the task went and ended.
   */
  lemma RequestsAreShaped(cfg: Config, env: Env, prefix: seq<Message>, n: nat)
    requires HonestEnv(env)
    ensures ShapedRecs(prefix, Loop(cfg, Task(env, prefix, []), |prefix|, n).task.recs)
  {
    assert prefix[|prefix|..] == [];
    LoopKeeps(cfg, prefix, Task(env, prefix, []), n, Loop(cfg, Task(env, prefix, []), |prefix|, n));
  }
}
