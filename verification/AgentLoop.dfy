/**
 * The loop of one agent task: it asks the model, runs the tool calls of the reply, rejects
 * answers that do not fit, and compacts its messages when they grow too long. The same loop
 * runs against live models and tools and against recorded ones.
 */
module AgentLoop {
  import opened Wrappers

  // ---- Messages, requests and replies ----

  datatype Role = System | User | Assistant | Tool

  /** Inputs and other JSON documents are compared in compact form. */
  datatype ToolCall = ToolCall(id: string, name: string, input: string)

  datatype Message = Message(role: Role, content: string, thinking: string, name: string, callId: string, calls: seq<ToolCall>)

  /** A request without its ids and model name, which neither side compares. */
  datatype Request = Request(messages: seq<Message>, tools: seq<string>, schema: Option<string>)

  datatype Response = Response(message: Message, calls: seq<ToolCall>)

  datatype ToolKey = ToolKey(name: string, input: string)

  /** How a tool call ends. A fatal error ends the task; any other is told to the model. */
  datatype Outcome = Output(content: string) | Error(message: string) | Fatal(code: string, message: string)

  function UserMessage(content: string): Message {
    Message(User, content, "", "", "", [])
  }

  function KeyOf(call: ToolCall): ToolKey {
    ToolKey(call.name, call.input)
  }

  // ---- What the loop is configured with ----

  /** Off when no compaction agent or limit is set; Missing when the agent is not registered. */
  datatype Compactor = Off | Missing(max: int) | On(max: int, instructions: string)

  /**
   * The task's agent and its runtime. Refusing a call, rejecting an answer, describing
   * messages for a summary, trimming, quoting and storing a tool's output as JSON are
   * functions that do not depend on when they are called.
   */
  datatype Config = Config(
    tools: seq<string>,
    schema: Option<string>,
    compactor: Compactor,
    refusal: ToolKey -> Option<string>,
    rejection: string -> Option<string>,
    describe: seq<Message> -> string,
    trim: string -> string,
    quote: string -> string,
    stored: string -> string)

  // ---- Models and tools, live or recorded ----

  datatype Exchange = Exchange(request: Request, response: Response)

  /** A tool result as an event holds it. */
  datatype Recorded = Recorded(output: string, err: string, fatal: string)

  datatype ToolRecord = ToolRecord(key: ToolKey, result: Recorded)

  /**
   * Live models and tools give any replies and outcomes, here listed in the order they are
   * asked for; recorded ones answer a request, or a call, with the first unused record for
   * it.
   */
  datatype Env =
    | Live(replies: seq<Response>, outcomes: seq<Outcome>)
    | Replaying(exchanges: seq<Exchange>, results: seq<ToolRecord>)

  function ReplyTo(exchanges: seq<Exchange>, req: Request): Option<Response> {
    if exchanges == [] then None
    else if exchanges[0].request == req then Some(exchanges[0].response)
    else ReplyTo(exchanges[1..], req)
  }

  function WithoutReply(exchanges: seq<Exchange>, req: Request): seq<Exchange> {
    if exchanges == [] then []
    else if exchanges[0].request == req then exchanges[1..]
    else [exchanges[0]] + WithoutReply(exchanges[1..], req)
  }

  function ResultOf(results: seq<ToolRecord>, key: ToolKey): Option<Recorded> {
    if results == [] then None
    else if results[0].key == key then Some(results[0].result)
    else ResultOf(results[1..], key)
  }

  function WithoutResult(results: seq<ToolRecord>, key: ToolKey): seq<ToolRecord> {
    if results == [] then []
    else if results[0].key == key then results[1..]
    else [results[0]] + WithoutResult(results[1..], key)
  }

  const NOT_RECORDED: string := "no recorded result"

  /** toolReplay.Execute, on the result it found. */
  function Replayed(r: Recorded): Outcome {
    if r.fatal == "budget_exceeded" then Fatal("budget_exceeded", r.err)
    else if r.fatal == "loop_detected" || r.fatal == "paused" then Fatal("loop_detected", r.err)
    else if r.err != "" then Error(r.err)
    else Output(r.output)
  }

  function Record(cfg: Config, o: Outcome): Recorded {
    match o
    case Output(content) => Recorded(cfg.stored(content), "", "")
    case Error(message) => Recorded("", message, "")
    case Fatal(code, message) => Recorded("", message, code)
  }

  function Reply(env: Env, req: Request): (Option<Response>, Env) {
    match env
    case Live(replies, outcomes) => if replies == [] then (None, env) else (Some(replies[0]), Live(replies[1..], outcomes))
    case Replaying(exchanges, results) => (ReplyTo(exchanges, req), Replaying(WithoutReply(exchanges, req), results))
  }

  function Execute(env: Env, key: ToolKey): (Outcome, Env) {
    match env
    case Live(replies, outcomes) =>
      if outcomes == [] then (Fatal("canceled", "context ended"), env) else (outcomes[0], Live(replies, outcomes[1..]))
    case Replaying(exchanges, results) =>
      (match ResultOf(results, key) case None => Error(NOT_RECORDED) case Some(r) => Replayed(r),
       Replaying(exchanges, WithoutResult(results, key)))
  }

  // ---- Tool calls ----

  datatype Invocation = Invocation(key: ToolKey, outcome: Outcome)

  function ErrorContent(cfg: Config, message: string): string {
    "{\"error\":" + cfg.quote(message) + "}"
  }

  function ToolMessage(cfg: Config, call: ToolCall, o: Outcome): Message {
    Message(Tool, if o.Output? then o.content else ErrorContent(cfg, o.message), "", call.name, call.id, [])
  }

  datatype CallsDone = CallsDone(env: Env, messages: seq<Message>, ok: bool, ran: seq<Invocation>)

  function RunCall(cfg: Config, env: Env, call: ToolCall): (Outcome, Env) {
    match cfg.refusal(KeyOf(call))
    case Some(why) => (Error(why), env)
    case None => Execute(env, KeyOf(call))
  }

  /** The calls of one reply, run one at a time; those after a fatal error still run. */
  function RunCalls(cfg: Config, env: Env, calls: seq<ToolCall>): CallsDone
    decreases |calls|
  {
    if calls == [] then CallsDone(env, [], true, [])
    else
      var (o, env') := RunCall(cfg, env, calls[0]);
      var rest := RunCalls(cfg, env', calls[1..]);
      CallsDone(rest.env, [ToolMessage(cfg, calls[0], o)] + rest.messages, !o.Fatal? && rest.ok, [Invocation(KeyOf(calls[0]), o)] + rest.ran)
  }

  // ---- The task ----

  datatype Purpose = Answering | Summarizing

  /** What the task's events record: a model call, or the tool calls of one reply. */
  datatype Rec = Called(purpose: Purpose, request: Request, response: Response) | Ran(ran: seq<Invocation>)

  datatype Task = Task(env: Env, messages: seq<Message>, recs: seq<Rec>)

  function Ask(t: Task, purpose: Purpose, req: Request): (Option<Response>, Task) {
    var (reply, env) := Reply(t.env, req);
    (reply, Task(env, t.messages, t.recs + if reply.Some? then [Called(purpose, req, reply.value)] else []))
  }

  function Chars(messages: seq<Message>): nat {
    if messages == [] then 0
    else |messages[0].content| + |messages[0].thinking| + CallChars(messages[0].calls) + Chars(messages[1..])
  }

  function CallChars(calls: seq<ToolCall>): nat {
    if calls == [] then 0 else |calls[0].name| + |calls[0].input| + CallChars(calls[1..])
  }

  /** estimateTokens. */
  function Tokens(messages: seq<Message>): nat {
    Chars(messages) / 4
  }

  predicate IsToolReply(m: Message) {
    m.role.Assistant? && m.calls != []
  }

  /** Where the latest tool round after messages[base] begins, looking back from i; base if there is none. */
  function LatestRound(messages: seq<Message>, base: nat, i: int): (cut: nat)
    requires base <= |messages| && i < |messages|
    ensures cut <= |messages| && base <= cut
    ensures cut == base || (cut < |messages| && IsToolReply(messages[cut]) && cut <= i)
    ensures forall j :: cut < j <= i ==> !IsToolReply(messages[j])
    decreases i - base
  {
    if i <= base then base else if IsToolReply(messages[i]) then i else LatestRound(messages, base, i - 1)
  }

  predicate HasReply(messages: seq<Message>) {
    exists i :: 0 <= i < |messages| && messages[i].role.Assistant?
  }

  /** Where compactTask cuts the messages, when they are too long and it has something to summarize. */
  function Cut(compactor: Compactor, messages: seq<Message>, base: nat): (cut: Option<nat>)
    requires base <= |messages|
    ensures cut.Some? ==> base < cut.value < |messages| && IsToolReply(messages[cut.value]) && HasReply(messages[base..cut.value])
    ensures cut.Some? ==> forall j :: cut.value < j < |messages| ==> !IsToolReply(messages[j])
  {
    if compactor.Off? || compactor.max <= 0 || Tokens(messages[base..]) <= compactor.max then None
    else
      var cut := LatestRound(messages, base, |messages| - 1);
      if HasReply(messages[base..cut]) then Some(cut) else None
  }

  function SummaryRequest(cfg: Config, instructions: string, turns: seq<Message>): Request {
    Request(
      (if instructions != "" then [Message(System, instructions, "", "", "", [])] else []) + [UserMessage(cfg.describe(turns))],
      [], None)
  }

  function Summarized(messages: seq<Message>, base: nat, cut: nat, summary: string): seq<Message>
    requires base <= cut <= |messages|
  {
    messages[..base] + [UserMessage("Summary of your work on this task so far:\n" + summary)] + messages[cut..]
  }

  datatype Compaction = Ready(task: Task) | Stuck(task: Task)

  /** compactTask. */
  function Compact(cfg: Config, t: Task, base: nat): Compaction
    requires base <= |t.messages|
  {
    match Cut(cfg.compactor, t.messages, base)
    case None => Ready(t)
    case Some(cut) =>
      if cfg.compactor.Missing? then Stuck(t)
      else
        var (reply, t') := Ask(t, Summarizing, SummaryRequest(cfg, cfg.compactor.instructions, t.messages[base..cut]));
        if reply.None? || cfg.trim(reply.value.message.content) == "" then Stuck(t')
        else Ready(t'.(messages := Summarized(t.messages, base, cut, cfg.trim(reply.value.message.content))))
  }

  datatype Turn = Next(task: Task) | Answered(task: Task, answer: string) | Failed(task: Task)

  function Rejection(why: string): Message {
    UserMessage("Your answer does not match the required output schema: " + why + "\nReply with only a JSON document that matches it.")
  }

  /** What the loop does with a reply. */
  function Continue(cfg: Config, t: Task, reply: Response): Turn {
    var messages := t.messages + [reply.message];
    if reply.calls != [] then
      var done := RunCalls(cfg, t.env, reply.calls);
      var t' := Task(done.env, messages + done.messages, t.recs + [Ran(done.ran)]);
      if done.ok then Next(t') else Failed(t')
    else
      match cfg.rejection(reply.message.content)
      case Some(why) => Next(t.(messages := messages + [Rejection(why)]))
      case None => Answered(t.(messages := messages), reply.message.content)
  }

  function MainRequest(cfg: Config, messages: seq<Message>): Request {
    Request(messages, cfg.tools, cfg.schema)
  }

  /** One turn of agentLoop's loop. */
  function Round(cfg: Config, t: Task, base: nat): Turn
    requires base <= |t.messages|
  {
    match Compact(cfg, t, base)
    case Stuck(t') => Failed(t')
    case Ready(t') =>
      var (reply, t'') := Ask(t', Answering, MainRequest(cfg, t'.messages));
      if reply.None? then Failed(t'') else Continue(cfg, t'', reply.value)
  }

  lemma CompactKeepsBase(cfg: Config, t: Task, base: nat)
    requires base <= |t.messages|
    ensures base <= |Compact(cfg, t, base).task.messages| && Compact(cfg, t, base).task.messages[..base] == t.messages[..base]
  {
  }

  lemma ContinueGrows(cfg: Config, t: Task, reply: Response)
    ensures t.messages <= Continue(cfg, t, reply).task.messages
  {
  }

  lemma RoundKeepsBase(cfg: Config, t: Task, base: nat)
    requires base <= |t.messages|
    ensures base <= |Round(cfg, t, base).task.messages| && Round(cfg, t, base).task.messages[..base] == t.messages[..base]
  {
    CompactKeepsBase(cfg, t, base);
    var c := Compact(cfg, t, base);
    if c.Ready? {
      var (reply, t') := Ask(c.task, Answering, MainRequest(cfg, c.task.messages));
      if reply.Some? {
        ContinueGrows(cfg, t', reply.value);
        assert Continue(cfg, t', reply.value).task.messages[..base] == c.task.messages[..base];
      }
    }
  }

  /** agentLoop, with n turns left; base is the number of messages up to the prompt. */
  function Loop(cfg: Config, t: Task, base: nat, n: nat): Turn
    requires base <= |t.messages|
    decreases n
  {
    if n == 0 then Failed(t)
    else
      RoundKeepsBase(cfg, t, base);
      match Round(cfg, t, base)
      case Next(t') => Loop(cfg, t', base, n - 1)
      case end => end
  }

  // ---- The loop as it runs ----

  /** runToolCalls, for calls that run one at a time: results in call order, or none after a fatal error. */
  method RunToolCalls(cfg: Config, env: Env, calls: seq<ToolCall>) returns (done: CallsDone)
    ensures done == RunCalls(cfg, env, calls)
  {
    var now, messages, ok, ran := env, [], true, [];
    assert calls[0..] == calls;
    for i := 0 to |calls|
      invariant RunCalls(cfg, env, calls) == Prepend(messages, ok, ran, RunCalls(cfg, now, calls[i..]))
    {
      assert calls[i..][0] == calls[i] && calls[i..][1..] == calls[i + 1..];
      var (o, next) := RunCall(cfg, now, calls[i]);
      PrependOne(messages, ok, ran, ToolMessage(cfg, calls[i], o), !o.Fatal?, Invocation(KeyOf(calls[i]), o), RunCalls(cfg, next, calls[i + 1..]));
      now, messages, ok := next, messages + [ToolMessage(cfg, calls[i], o)], ok && !o.Fatal?;
      ran := ran + [Invocation(KeyOf(calls[i]), o)];
    }
    assert messages + [] == messages && ran + [] == ran;
    done := CallsDone(now, messages, ok, ran);
  }

  function Prepend(messages: seq<Message>, ok: bool, ran: seq<Invocation>, rest: CallsDone): CallsDone {
    CallsDone(rest.env, messages + rest.messages, ok && rest.ok, ran + rest.ran)
  }

  lemma PrependOne(messages: seq<Message>, ok: bool, ran: seq<Invocation>, m: Message, fine: bool, inv: Invocation, rest: CallsDone)
    ensures Prepend(messages, ok, ran, Prepend([m], fine, [inv], rest)) == Prepend(messages + [m], ok && fine, ran + [inv], rest)
  {
    assert messages + ([m] + rest.messages) == messages + [m] + rest.messages;
    assert ran + ([inv] + rest.ran) == ran + [inv] + rest.ran;
  }

  method CompactTask(cfg: Config, t: Task, base: nat) returns (c: Compaction)
    requires base <= |t.messages|
    ensures c == Compact(cfg, t, base)
  {
    if cfg.compactor.Off? || cfg.compactor.max <= 0 || Tokens(t.messages[base..]) <= cfg.compactor.max {
      return Ready(t);
    }
    var cut := base;
    var i := |t.messages| - 1;
    while i > base
      invariant cut == base && LatestRound(t.messages, base, |t.messages| - 1) == LatestRound(t.messages, base, i)
    {
      if IsToolReply(t.messages[i]) {
        cut := i;
        break;
      }
      i := i - 1;
    }
    assert cut == LatestRound(t.messages, base, |t.messages| - 1);
    if !HasReply(t.messages[base..cut]) {
      return Ready(t);
    }
    if cfg.compactor.Missing? {
      return Stuck(t);
    }
    var (reply, asked) := Ask(t, Summarizing, SummaryRequest(cfg, cfg.compactor.instructions, t.messages[base..cut]));
    if reply.None? {
      return Stuck(asked);
    }
    var summary := cfg.trim(reply.value.message.content);
    if summary == "" {
      return Stuck(asked);
    }
    return Ready(asked.(messages := Summarized(t.messages, base, cut, summary)));
  }

  /** What agentLoop does with a reply. */
  method HandleReply(cfg: Config, t: Task, reply: Response) returns (turn: Turn)
    ensures turn == Continue(cfg, t, reply)
  {
    var messages := t.messages + [reply.message];
    if |reply.calls| > 0 {
      var done := RunToolCalls(cfg, t.env, reply.calls);
      var t' := Task(done.env, messages + done.messages, t.recs + [Ran(done.ran)]);
      return if done.ok then Next(t') else Failed(t');
    }
    var why := cfg.rejection(reply.message.content);
    if why.Some? {
      return Next(t.(messages := messages + [Rejection(why.value)]));
    }
    return Answered(t.(messages := messages), reply.message.content);
  }

  /** The body of agentLoop's loop. */
  method RunTurn(cfg: Config, t: Task, base: nat) returns (turn: Turn)
    requires base <= |t.messages|
    ensures turn == Round(cfg, t, base)
  {
    var c := CompactTask(cfg, t, base);
    if c.Stuck? {
      return Failed(c.task);
    }
    var (reply, asked) := Ask(c.task, Answering, MainRequest(cfg, c.task.messages));
    if reply.None? {
      return Failed(asked);
    }
    turn := HandleReply(cfg, asked, reply.value);
  }

  /** agentLoop, from the prompt on. */
  method RunAgentLoop(cfg: Config, env: Env, prefix: seq<Message>, maxToolLoops: int) returns (end: Turn)
    ensures end == Loop(cfg, Task(env, prefix, []), |prefix|, if maxToolLoops > 0 then maxToolLoops else 0)
  {
    var t := Task(env, prefix, []);
    var n := if maxToolLoops > 0 then maxToolLoops else 0;
    for i := 0 to n
      invariant |prefix| <= |t.messages|
      invariant Loop(cfg, t, |prefix|, n - i) == Loop(cfg, Task(env, prefix, []), |prefix|, n)
    {
      RoundKeepsBase(cfg, t, |prefix|);
      var turn := RunTurn(cfg, t, |prefix|);
      if !turn.Next? {
        return turn;
      }
      t := turn.task;
    }
    return Failed(t);
  }
}
