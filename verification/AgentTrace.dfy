/**
 * A task told from its records and messages alone: how each request comes from the one
 * before it, which reply is the answer, and what can keep a task from answering.
 */
module AgentTrace {
  import opened Wrappers
  import opened Collections
  import opened AgentLoop
  import opened AgentShape

  // ---- What a turn may be ----

  /** The characters of a list of messages: their contents, reasoning, and calls' names and inputs. */
  function Length(messages: seq<Message>): nat {
    if messages == [] then 0
    else
      var last := messages[|messages| - 1];
      Length(messages[..|messages| - 1]) + |last.content| + |last.thinking| + CallLength(last.calls)
  }

  function CallLength(calls: seq<ToolCall>): nat {
    if calls == [] then 0
    else
      var last := calls[|calls| - 1];
      CallLength(calls[..|calls| - 1]) + |last.name| + |last.input|
  }

  /** Compaction is due: the messages after the prompt are over the limit, and a reply stands before a later tool round. */
  predicate Due(c: Compactor, tail: seq<Message>) {
    !c.Off? && c.max > 0 && Length(tail) / 4 > c.max && HasOlderReply(tail)
  }

  predicate HasOlderReply(tail: seq<Message>) {
    exists i, j :: 0 <= i < j < |tail| && tail[i].role.Assistant? && IsToolReply(tail[j])
  }

  /** The latest tool round begins here. */
  predicate LatestRoundAt(messages: seq<Message>, cut: nat) {
    cut < |messages| && IsToolReply(messages[cut]) && forall j :: cut < j < |messages| ==> !IsToolReply(messages[j])
  }

  /** The prefix, one message with what the summarizer said, and the latest tool round. */
  ghost predicate SummarizedAs(cfg: Config, base: nat, before: seq<Message>, summary: string, after: seq<Message>) {
    && base <= |before| && cfg.trim(summary) != ""
    && exists cut: nat ::
         && base < cut && LatestRoundAt(before, cut)
         && after == before[..base] + [UserMessage("Summary of your work on this task so far:\n" + cfg.trim(summary))] + before[cut..]
  }

  /** The compaction agent's instructions, if it has any, and what it is asked. */
  function Instructed(instructions: string, question: string): seq<Message> {
    if instructions == "" then [UserMessage(question)]
    else [Message(System, instructions, "", "", "", []), UserMessage(question)]
  }

  /** The summarizer is asked about the turns before the latest round, and about nothing else. */
  ghost predicate SummaryAsked(cfg: Config, base: nat, before: seq<Message>, req: Request) {
    && base <= |before| && cfg.compactor.On?
    && exists cut: nat ::
         && base < cut && LatestRoundAt(before, cut)
         && req.messages == Instructed(cfg.compactor.instructions, cfg.describe(before[base..cut]))
         && req.tools == [] && req.schema.None?
  }

  /** How the messages are brought under the limit before the model is asked, and what that leaves in the records. */
  ghost predicate Prepared(cfg: Config, base: nat, before: seq<Message>, recs: seq<Rec>, after: seq<Message>) {
    && base <= |before|
    && if !Due(cfg.compactor, before[base..]) then recs == [] && after == before
       else
         && |recs| == 1 && recs[0].Called? && recs[0].purpose.Summarizing?
         && SummaryAsked(cfg, base, before, recs[0].request)
         && SummarizedAs(cfg, base, before, recs[0].response.message.content, after)
  }

  /** The model is asked with all messages so far, the task's tools and its schema. */
  predicate AskedWith(cfg: Config, messages: seq<Message>, rec: Rec) {
    rec.Called? && rec.purpose.Answering? && rec.request == Request(messages, cfg.tools, cfg.schema)
  }

  /** A call's message says what the call gave, or its error. */
  predicate ToldResult(cfg: Config, call: ToolCall, end: Outcome, m: Message) {
    && m.role.Tool? && m.callId == call.id && m.name == call.name && m.calls == []
    && match end
       case Output(content) => m.content == content
       case Error(message) => m.content == "{\"error\":" + cfg.quote(message) + "}"
       case Fatal(_, _) => true
  }

  /** All calls of the reply ran, each under its own name and input, and none ended the task. */
  predicate AllRan(cfg: Config, calls: seq<ToolCall>, ran: seq<Invocation>, results: seq<Message>) {
    && |ran| == |calls| == |results|
    && forall k :: 0 <= k < |calls| ==>
         ran[k].key == ToolKey(calls[k].name, calls[k].input) && !ran[k].outcome.Fatal?
         && ToldResult(cfg, calls[k], ran[k].outcome, results[k])
  }

  predicate PartAt(text: string, part: string, i: nat) {
    i + |part| <= |text| && text[i..i + |part|] == part
  }

  /** The text contains this. */
  predicate Holds(text: string, part: string) {
    exists i :: 0 <= i <= |text| && PartAt(text, part, i)
  }

  /** One user message that says why. */
  predicate Rejects(messages: seq<Message>, why: string) {
    |messages| == 1 && messages[0].role.User? && messages[0].calls == [] && Holds(messages[0].content, why)
  }

  lemma RejectionRejects(why: string)
    ensures Rejects([Rejection(why)], why)
  {
    var before := "Your answer does not match the required output schema: ";
    var content := Rejection(why).content;
    assert PartAt(content, why, |before|);
  }

  /** A turn after which the task goes on: a tool round, or an answer that is rejected and told why. */
  predicate GoesOn(cfg: Config, asked: seq<Message>, recs: seq<Rec>, after: seq<Message>) {
    && recs != [] && AskedWith(cfg, asked, recs[0])
    && var reply := recs[0].response;
       && |asked| < |after| && after[..|asked| + 1] == asked + [reply.message]
       && var more := after[|asked| + 1..];
          if reply.calls != [] then |recs| == 2 && recs[1].Ran? && AllRan(cfg, reply.calls, recs[1].ran, more)
          else |recs| == 1 && cfg.rejection(reply.message.content).Some? && Rejects(more, cfg.rejection(reply.message.content).value)
  }

  /** One whole turn that goes on. */
  ghost predicate Turns(cfg: Config, base: nat, before: seq<Message>, recs: seq<Rec>, after: seq<Message>) {
    exists n: nat, asked: seq<Message> ::
      n <= |recs| && Prepared(cfg, base, before, recs[..n], asked) && GoesOn(cfg, asked, recs[n..], after)
  }

  /** How far a task has come after some turns: so many records, and these messages. */
  datatype Mark = Mark(n: nat, messages: seq<Message>)

  ghost predicate TurnBetween(cfg: Config, base: nat, recs: seq<Rec>, a: Mark, b: Mark) {
    a.n <= b.n <= |recs| && Turns(cfg, base, a.messages, recs[a.n..b.n], b.messages)
  }

  /** From the prompt, each mark is one turn after the one before. */
  ghost predicate Leads(cfg: Config, prefix: seq<Message>, recs: seq<Rec>, marks: seq<Mark>) {
    && marks != [] && marks[0] == Mark(0, prefix)
    && forall k :: 0 <= k < |marks| - 1 ==> TurnBetween(cfg, |prefix|, recs, marks[k], marks[k + 1])
  }

  // ---- How a task may end ----

  /** The reply is the answer: it asks for no calls, is not rejected, and is the last message. */
  predicate IsAnswer(cfg: Config, asked: seq<Message>, recs: seq<Rec>, messages: seq<Message>, answer: string) {
    && |recs| == 1 && AskedWith(cfg, asked, recs[0])
    && recs[0].response.calls == [] && messages == asked + [recs[0].response.message]
    && answer == recs[0].response.message.content && cfg.rejection(answer).None?
  }

  /** A reply's calls ran and one of them ended the task. */
  predicate ToolFails(cfg: Config, asked: seq<Message>, recs: seq<Rec>) {
    && |recs| == 2 && AskedWith(cfg, asked, recs[0])
    && recs[1].Ran? && exists k :: 0 <= k < |recs[1].ran| && recs[1].ran[k].outcome.Fatal?
  }

  /** The model has no reply to this request. */
  predicate NoReply(env: Env, req: Request) {
    match env
    case Live(replies, _) => replies == []
    case Replaying(exchanges, _) => forall k :: 0 <= k < |exchanges| ==> exchanges[k].request != req
  }

  predicate ModelFails(cfg: Config, env: Env, asked: seq<Message>, recs: seq<Rec>) {
    recs == [] && NoReply(env, Request(asked, cfg.tools, cfg.schema))
  }

  /** Compaction is due and the agent for it is missing, or says nothing, or cannot be asked. */
  ghost predicate CompactionFails(cfg: Config, env: Env, base: nat, before: seq<Message>, recs: seq<Rec>) {
    && base <= |before| && Due(cfg.compactor, before[base..])
    && (|| (recs == [] && (cfg.compactor.Missing? || exists req: Request :: SummaryAsked(cfg, base, before, req) && NoReply(env, req)))
        || (|recs| == 1 && recs[0].Called? && recs[0].purpose.Summarizing? && SummaryAsked(cfg, base, before, recs[0].request)
            && cfg.trim(recs[0].response.message.content) == ""))
  }

  /** What the reply, or its absence, ends the task with. */
  predicate EndsAfter(cfg: Config, asked: seq<Message>, recs: seq<Rec>, end: Turn) {
    match end
    case Answered(t, answer) => IsAnswer(cfg, asked, recs, t.messages, answer)
    case Failed(t) => ToolFails(cfg, asked, recs) || ModelFails(cfg, t.env, asked, recs)
    case Next(_) => false
  }

  /** The turn that ends the task, after `before`. */
  ghost predicate EndsTurn(cfg: Config, base: nat, before: seq<Message>, recs: seq<Rec>, end: Turn) {
    || (end.Failed? && CompactionFails(cfg, end.task.env, base, before, recs))
    || exists n: nat, asked: seq<Message> ::
         n <= |recs| && Prepared(cfg, base, before, recs[..n], asked) && EndsAfter(cfg, asked, recs[n..], end)
  }

  /** All turns but the last went on, to these marks, and then one ended the task, or none was left. */
  ghost predicate EndsAt(cfg: Config, prefix: seq<Message>, max: nat, end: Turn, marks: seq<Mark>) {
    && Leads(cfg, prefix, end.task.recs, marks) && |marks| <= max + 1
    && var last := marks[|marks| - 1];
       if |marks| == max + 1 then end.Failed? && last == Mark(|end.task.recs|, end.task.messages)
       else last.n <= |end.task.recs| && EndsTurn(cfg, |prefix|, last.messages, end.task.recs[last.n..], end)
  }

  /** A task of at most `max` turns ended so. */
  ghost predicate EndsAs(cfg: Config, prefix: seq<Message>, max: nat, end: Turn) {
    exists marks: seq<Mark> :: EndsAt(cfg, prefix, max, end, marks)
  }

  // ---- Compaction ----

  lemma OlderReplyIsCut(messages: seq<Message>, base: nat)
    requires base <= |messages| && HasOlderReply(messages[base..])
    ensures base < LatestRound(messages, base, |messages| - 1) && HasReply(messages[base..LatestRound(messages, base, |messages| - 1)])
  {
    var tail := messages[base..];
    var i, j :| 0 <= i < j < |tail| && tail[i].role.Assistant? && IsToolReply(tail[j]);
    var latest := LatestRound(messages, base, |messages| - 1);
    assert messages[base + j] == tail[j];
    assert messages[base..latest][i] == tail[i];
  }

  lemma {:induction false} CallCharsAreLength(calls: seq<ToolCall>)
    ensures CallChars(calls) == CallLength(calls)
  {
    if |calls| == 1 {
      assert calls[1..] == [] && calls[..0] == [];
    } else if calls != [] {
      var n := |calls| - 1;
      var middle := calls[1..][..n - 1];
      CallCharsAreLength(calls[1..]);
      CallCharsAreLength(calls[..n]);
      CallCharsAreLength(middle);
      assert middle == calls[..n][1..];
    }
  }

  lemma {:induction false} CharsAreLength(messages: seq<Message>)
    ensures Chars(messages) == Length(messages)
  {
    if |messages| == 1 {
      CallCharsAreLength(messages[0].calls);
      assert messages[1..] == [] && messages[..0] == [];
    } else if messages != [] {
      var n := |messages| - 1;
      var middle := messages[1..][..n - 1];
      CharsAreLength(messages[1..]);
      CharsAreLength(messages[..n]);
      CharsAreLength(middle);
      assert middle == messages[..n][1..];
    }
  }

  /** Compaction cuts exactly when it is due, before the latest tool round. */
  lemma CutsWhenDue(c: Compactor, messages: seq<Message>, base: nat)
    requires base <= |messages|
    ensures Cut(c, messages, base).Some? <==> Due(c, messages[base..])
    ensures var cut := Cut(c, messages, base); cut.Some? ==> base < cut.value && LatestRoundAt(messages, cut.value)
  {
    var tail := messages[base..];
    var cut := Cut(c, messages, base);
    CharsAreLength(tail);
    if HasOlderReply(tail) {
      OlderReplyIsCut(messages, base);
    }
    if cut.Some? {
      var i :| 0 <= i < |messages[base..cut.value]| && messages[base..cut.value][i].role.Assistant?;
      assert tail[i] == messages[base..cut.value][i] && tail[cut.value - base] == messages[cut.value];
    }
  }

  lemma {:induction false} NothingLeftWithout(exchanges: seq<Exchange>, req: Request)
    ensures ReplyTo(exchanges, req).None? ==> NoReply(Replaying(WithoutReply(exchanges, req), []), req)
  {
    if exchanges != [] && exchanges[0].request != req {
      NothingLeftWithout(exchanges[1..], req);
    }
  }

  lemma UnansweredHasNoReply(env: Env, req: Request)
    ensures Reply(env, req).0.None? ==> NoReply(Reply(env, req).1, req)
  {
    if env.Replaying? {
      NothingLeftWithout(env.exchanges, req);
    }
  }

  lemma AskedAboutTurns(cfg: Config, messages: seq<Message>, base: nat, cut: nat)
    requires base < cut && LatestRoundAt(messages, cut) && cfg.compactor.On?
    ensures SummaryAsked(cfg, base, messages, SummaryRequest(cfg, cfg.compactor.instructions, messages[base..cut]))
  {
    var question := cfg.describe(messages[base..cut]);
    var req := SummaryRequest(cfg, cfg.compactor.instructions, messages[base..cut]);
    assert req.messages == Instructed(cfg.compactor.instructions, question);
  }

  /** What compactTask adds to the records. */
  lemma CompactTraced(cfg: Config, t: Task, base: nat) returns (pre: seq<Rec>)
    requires base <= |t.messages|
    ensures var c := Compact(cfg, t, base);
            && c.task.recs == t.recs + pre
            && (c.Ready? ==> Prepared(cfg, base, t.messages, pre, c.task.messages))
            && (c.Stuck? ==> CompactionFails(cfg, c.task.env, base, t.messages, pre))
  {
    CutsWhenDue(cfg.compactor, t.messages, base);
    var cut := Cut(cfg.compactor, t.messages, base);
    pre := [];
    Unit(t.recs);
    if cut.Some? && !cfg.compactor.Missing? {
      var req := SummaryRequest(cfg, cfg.compactor.instructions, t.messages[base..cut.value]);
      AskedAboutTurns(cfg, t.messages, base, cut.value);
      UnansweredHasNoReply(t.env, req);
      var reply := Reply(t.env, req).0;
      if reply.Some? {
        pre := [Called(Summarizing, req, reply.value)];
      }
    }
  }

  // ---- One turn ----

  lemma {:induction false} CallsTold(cfg: Config, env: Env, calls: seq<ToolCall>)
    ensures var done := RunCalls(cfg, env, calls);
            && |done.ran| == |done.messages| == |calls|
            && (forall k :: 0 <= k < |calls| ==>
                  done.ran[k].key == ToolKey(calls[k].name, calls[k].input)
                  && ToldResult(cfg, calls[k], done.ran[k].outcome, done.messages[k]))
            && (done.ok <==> forall k :: 0 <= k < |calls| ==> !done.ran[k].outcome.Fatal?)
    decreases |calls|
  {
    if calls != [] {
      var (o, next) := RunCall(cfg, env, calls[0]);
      CallsTold(cfg, next, calls[1..]);
    }
  }

  /** A tool round's record, and the messages after it. */
  lemma ToolRoundTraced(cfg: Config, t: Task, reply: Response, rec: Rec)
    requires reply.calls != [] && rec == Called(Answering, MainRequest(cfg, t.messages), reply)
    ensures var turn := Continue(cfg, t, reply);
            var recs := [rec, Ran(RunCalls(cfg, t.env, reply.calls).ran)];
            && turn.task.recs == t.recs + recs[1..]
            && (turn.Next? ==> GoesOn(cfg, t.messages, recs, turn.task.messages))
            && (!turn.Next? ==> turn.Failed? && ToolFails(cfg, t.messages, recs))
  {
    CallsTold(cfg, t.env, reply.calls);
    var done := RunCalls(cfg, t.env, reply.calls);
    var after := t.messages + [reply.message] + done.messages;
    assert after[|t.messages| + 1..] == done.messages && after[..|t.messages| + 1] == t.messages + [reply.message];
    assert [rec, Ran(done.ran)][1..] == [Ran(done.ran)];
  }

  lemma RejectionTraced(cfg: Config, t: Task, reply: Response, rec: Rec)
    requires reply.calls == [] && rec == Called(Answering, MainRequest(cfg, t.messages), reply)
    ensures var turn := Continue(cfg, t, reply);
            && turn.task.recs == t.recs
            && (turn.Next? ==> GoesOn(cfg, t.messages, [rec], turn.task.messages))
            && (!turn.Next? ==> turn.Answered? && IsAnswer(cfg, t.messages, [rec], turn.task.messages, turn.answer))
  {
    var why := cfg.rejection(reply.message.content);
    if why.Some? {
      var after := t.messages + [reply.message] + [Rejection(why.value)];
      RejectionRejects(why.value);
      assert after[|t.messages| + 1..] == [Rejection(why.value)] && after[..|t.messages| + 1] == t.messages + [reply.message];
    }
  }

  /** What a reply adds to the records. */
  lemma ReplyTraced(cfg: Config, t: Task, reply: Response, rec: Rec) returns (more: seq<Rec>)
    requires rec == Called(Answering, MainRequest(cfg, t.messages), reply)
    ensures var turn := Continue(cfg, t, reply);
            && turn.task.recs == t.recs + more
            && if turn.Next? then GoesOn(cfg, t.messages, [rec] + more, turn.task.messages)
               else EndsAfter(cfg, t.messages, [rec] + more, turn)
  {
    if reply.calls != [] {
      ToolRoundTraced(cfg, t, reply, rec);
      more := [Ran(RunCalls(cfg, t.env, reply.calls).ran)];
      assert [rec] + more == [rec, more[0]] && [rec, more[0]][1..] == more;
    } else {
      RejectionTraced(cfg, t, reply, rec);
      more := [];
      Unit(t.recs);
      assert [rec] + more == [rec];
    }
  }

  /** One turn of the loop, told from what it adds to the records. */
  lemma RoundTraced(cfg: Config, t: Task, base: nat) returns (added: seq<Rec>)
    requires base <= |t.messages|
    ensures var turn := Round(cfg, t, base);
            && turn.task.recs == t.recs + added
            && if turn.Next? then Turns(cfg, base, t.messages, added, turn.task.messages)
               else EndsTurn(cfg, base, t.messages, added, turn)
  {
    var pre := CompactTraced(cfg, t, base);
    var c := Compact(cfg, t, base);
    if c.Stuck? {
      added := pre;
      return;
    }
    var asked := c.task.messages;
    var req := MainRequest(cfg, asked);
    UnansweredHasNoReply(c.task.env, req);
    var (reply, t') := Ask(c.task, Answering, req);
    Unit(pre);
    assert pre[..|pre|] == pre && pre[|pre|..] == [];
    if reply.None? {
      added := pre;
      Unit(c.task.recs);
      assert ModelFails(cfg, t'.env, asked, added[|pre|..]);
      return;
    }
    var rec := Called(Answering, req, reply.value);
    var more := ReplyTraced(cfg, t', reply.value, rec);
    added := pre + ([rec] + more);
    assert added[..|pre|] == pre && added[|pre|..] == [rec] + more;
    Assoc(t.recs, pre, [rec]);
    Assoc(t.recs + pre, [rec], more);
    Assoc(t.recs, pre, [rec] + more);
  }

  // ---- The loop ----

  lemma SameTurnBetween(cfg: Config, base: nat, recs: seq<Rec>, added: seq<Rec>, a: Mark, b: Mark)
    requires TurnBetween(cfg, base, recs, a, b)
    ensures TurnBetween(cfg, base, recs + added, a, b)
  {
    assert (recs + added)[a.n..b.n] == recs[a.n..b.n];
  }

  lemma MoreRecords(cfg: Config, prefix: seq<Message>, recs: seq<Rec>, marks: seq<Mark>, added: seq<Rec>)
    requires Leads(cfg, prefix, recs, marks)
    ensures Leads(cfg, prefix, recs + added, marks)
  {
    forall k | 0 <= k < |marks| - 1 ensures TurnBetween(cfg, |prefix|, recs + added, marks[k], marks[k + 1]) {
      SameTurnBetween(cfg, |prefix|, recs, added, marks[k], marks[k + 1]);
    }
  }

  /** The task stands at the last mark. */
  ghost predicate StandsAt(cfg: Config, prefix: seq<Message>, t: Task, marks: seq<Mark>) {
    Leads(cfg, prefix, t.recs, marks) && marks[|marks| - 1] == Mark(|t.recs|, t.messages)
  }

  lemma OneTurnMore(cfg: Config, prefix: seq<Message>, t: Task, marks: seq<Mark>, added: seq<Rec>, t': Task) returns (next: seq<Mark>)
    requires StandsAt(cfg, prefix, t, marks) && t'.recs == t.recs + added
    requires Turns(cfg, |prefix|, t.messages, added, t'.messages)
    ensures StandsAt(cfg, prefix, t', next) && |next| == |marks| + 1
  {
    MoreRecords(cfg, prefix, t.recs, marks, added);
    next := marks + [Mark(|t'.recs|, t'.messages)];
    assert t'.recs[|t.recs|..|t'.recs|] == added;
    forall k | 0 <= k < |next| - 1 ensures TurnBetween(cfg, |prefix|, t'.recs, next[k], next[k + 1]) {
      if k < |marks| - 1 {
        assert TurnBetween(cfg, |prefix|, t'.recs, marks[k], marks[k + 1]);
      }
    }
  }

  lemma EndsHere(cfg: Config, prefix: seq<Message>, max: nat, t: Task, marks: seq<Mark>, added: seq<Rec>, end: Turn)
    requires StandsAt(cfg, prefix, t, marks) && |marks| <= max && end.task.recs == t.recs + added
    requires EndsTurn(cfg, |prefix|, t.messages, added, end)
    ensures EndsAs(cfg, prefix, max, end)
  {
    MoreRecords(cfg, prefix, t.recs, marks, added);
    assert end.task.recs[|t.recs|..] == added;
    assert EndsAt(cfg, prefix, max, end, marks);
  }

  lemma OutOfTurns(cfg: Config, prefix: seq<Message>, max: nat, t: Task, marks: seq<Mark>)
    requires StandsAt(cfg, prefix, t, marks) && |marks| == max + 1
    ensures EndsAs(cfg, prefix, max, Failed(t))
  {
    assert EndsAt(cfg, prefix, max, Failed(t), marks);
  }

  lemma TurnTraced(cfg: Config, prefix: seq<Message>, t: Task, marks: seq<Mark>, max: nat, turn: Turn) returns (next: seq<Mark>)
    requires StandsAt(cfg, prefix, t, marks) && |prefix| <= |t.messages| && |marks| <= max && turn == Round(cfg, t, |prefix|)
    ensures turn.Next? ==> StandsAt(cfg, prefix, turn.task, next) && |next| == |marks| + 1
    ensures !turn.Next? ==> EndsAs(cfg, prefix, max, turn)
  {
    var added := RoundTraced(cfg, t, |prefix|);
    next := [];
    if turn.Next? {
      next := OneTurnMore(cfg, prefix, t, marks, added, turn.task);
    } else {
      EndsHere(cfg, prefix, max, t, marks, added, turn);
    }
  }

  lemma {:induction false} LoopTraced(cfg: Config, prefix: seq<Message>, t: Task, marks: seq<Mark>, n: nat, max: nat, end: Turn)
    requires StandsAt(cfg, prefix, t, marks) && |prefix| <= |t.messages| && |marks| + n == max + 1
    requires end == Loop(cfg, t, |prefix|, n)
    ensures EndsAs(cfg, prefix, max, end)
    decreases n
  {
    if n == 0 {
      OutOfTurns(cfg, prefix, max, t, marks);
    } else {
      var turn := Round(cfg, t, |prefix|);
      LoopTurn(cfg, t, |prefix|, n, turn);
      var next := TurnTraced(cfg, prefix, t, marks, max, turn);
      if turn.Next? {
        LoopTraced(cfg, prefix, turn.task, next, n - 1, max, end);
      }
    }
  }

  /**
   * Every task goes as its records say: turns that go on, each asked with the messages the
   * one before left and followed by the results of the reply's calls or the reason of its
   * rejection, and an end that is an answer, a fatal tool call, a model call or compaction
   * that failed, or no turn left.
   */
  lemma TasksGoAsRecorded(cfg: Config, env: Env, prefix: seq<Message>, n: nat)
    ensures EndsAs(cfg, prefix, n, Loop(cfg, Task(env, prefix, []), |prefix|, n))
  {
    LoopTraced(cfg, prefix, Task(env, prefix, []), [Mark(0, prefix)], n, n, Loop(cfg, Task(env, prefix, []), |prefix|, n));
  }

  // ---- The answer ----

  /** The last record is the model's reply to all messages but the last, which is the answer. */
  predicate LastAnswers(cfg: Config, messages: seq<Message>, recs: seq<Rec>, answer: string) {
    && messages != [] && recs != []
    && var m, r := |messages| - 1, |recs| - 1;
       && AskedWith(cfg, messages[..m], recs[r]) && recs[r].response.message == messages[m] && recs[r].response.calls == []
       && answer == messages[m].content && cfg.rejection(answer).None?
  }

  lemma AnswerAlone(cfg: Config, asked: seq<Message>, recs: seq<Rec>, end: Turn)
    requires EndsAfter(cfg, asked, recs, end) && end.Answered?
    ensures IsAnswer(cfg, asked, recs, end.task.messages, end.answer)
  {
  }

  lemma AnswerEndsTurn(cfg: Config, base: nat, before: seq<Message>, recs: seq<Rec>, end: Turn)
    requires EndsTurn(cfg, base, before, recs, end) && end.Answered?
    ensures LastAnswers(cfg, end.task.messages, recs, end.answer)
  {
    var k: nat, asked: seq<Message> :| k <= |recs| && EndsAfter(cfg, asked, recs[k..], end);
    AnswerAlone(cfg, asked, recs[k..], end);
    assert recs[k..][0] == recs[k];
    assert end.task.messages[..|end.task.messages| - 1] == asked;
  }

  lemma AnswerEnds(cfg: Config, prefix: seq<Message>, max: nat, end: Turn)
    requires EndsAs(cfg, prefix, max, end) && end.Answered?
    ensures LastAnswers(cfg, end.task.messages, end.task.recs, end.answer)
  {
    var marks: seq<Mark> :| EndsAt(cfg, prefix, max, end, marks);
    var last := marks[|marks| - 1];
    AnswerEndsTurn(cfg, |prefix|, last.messages, end.task.recs[last.n..], end);
  }

  /**
   * If a task answers, its last message is the model's, without calls; the answer is that
   * message's content and is not rejected; and the last record is the model's reply to all
   * the messages before it.
   */
  lemma AnswerIsLastReply(cfg: Config, env: Env, prefix: seq<Message>, n: nat)
    requires HonestEnv(env) && Loop(cfg, Task(env, prefix, []), |prefix|, n).Answered?
    ensures var end := Loop(cfg, Task(env, prefix, []), |prefix|, n);
            && LastAnswers(cfg, end.task.messages, end.task.recs, end.answer)
            && var last := end.task.messages[|end.task.messages| - 1]; last.role.Assistant? && last.calls == []
  {
    var end := Loop(cfg, Task(env, prefix, []), |prefix|, n);
    RequestsAreShaped(cfg, env, prefix, n);
    TasksGoAsRecorded(cfg, env, prefix, n);
    AnswerEnds(cfg, prefix, n, end);
    assert ShapedRec(prefix, end.task.recs[|end.task.recs| - 1]);
  }
}
