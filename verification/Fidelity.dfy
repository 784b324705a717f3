/**
 * Re-execution fidelity: a task that ended with an answer, run again by the same loop
 * against what its events recorded.
 */
module Fidelity {
  import opened Wrappers
  import opened Collections
  import opened AgentLoop
  import opened Recording

  // ---- What can be told apart ----

  datatype Asked = Asked(purpose: Purpose, request: Request)

  function AskedIn(rec: Rec): seq<Asked> {
    if rec.Called? then [Asked(rec.purpose, rec.request)] else []
  }

  /** The requests sent, each with what it was for. */
  function AskedOf(recs: seq<Rec>): seq<Asked> {
    if recs == [] then [] else AskedIn(recs[0]) + AskedOf(recs[1..])
  }

  /**
   * A tool result survives recording: its output is stored as it is, or its error says
   * something. A refused call is refused again, so its record is not needed.
   */
  predicate Faithful(cfg: Config, i: Invocation) {
    || cfg.refusal(i.key).Some?
    || match i.outcome
       case Output(content) => cfg.stored(content) == content
       case Error(message) => message != ""
       case Fatal(_, _) => true
  }

  predicate AllFaithful(cfg: Config, ran: seq<Invocation>) {
    ran == [] || (Faithful(cfg, ran[0]) && AllFaithful(cfg, ran[1..]))
  }

  predicate FaithfulRecs(cfg: Config, recs: seq<Rec>) {
    recs == [] || ((recs[0].Ran? ==> AllFaithful(cfg, recs[0].ran)) && FaithfulRecs(cfg, recs[1..]))
  }

  lemma {:induction false} RecsConcat(cfg: Config, a: seq<Rec>, b: seq<Rec>)
    ensures AskedOf(a + b) == AskedOf(a) + AskedOf(b)
    ensures ExchangesOf(a + b) == ExchangesOf(a) + ExchangesOf(b)
    ensures ResultsOf(cfg, a + b) == ResultsOf(cfg, a) + ResultsOf(cfg, b)
    ensures FaithfulRecs(cfg, a + b) <==> FaithfulRecs(cfg, a) && FaithfulRecs(cfg, b)
  {
    if a == [] {
      Unit(b);
      Unit(AskedOf(b));
      Unit(ExchangesOf(b));
      Unit(ResultsOf(cfg, b));
    } else {
      RecsConcat(cfg, a[1..], b);
      TailOfConcat(a, b, 1);
      Assoc(AskedIn(a[0]), AskedOf(a[1..]), AskedOf(b));
      Assoc(ExchangeOf(a[0]), ExchangesOf(a[1..]), ExchangesOf(b));
      Assoc(ResultsIn(cfg, a[0]), ResultsOf(cfg, a[1..]), ResultsOf(cfg, b));
    }
  }

  lemma OneRec(cfg: Config, rec: Rec)
    ensures AskedOf([rec]) == AskedIn(rec) && ExchangesOf([rec]) == ExchangeOf(rec) && ResultsOf(cfg, [rec]) == ResultsIn(cfg, rec)
    ensures FaithfulRecs(cfg, [rec]) <==> (rec.Ran? ==> AllFaithful(cfg, rec.ran))
  {
    assert [rec][1..] == [];
    Unit(AskedIn(rec));
    Unit(ExchangeOf(rec));
    Unit(ResultsIn(cfg, rec));
  }

  // ---- Recorded tool results ----

  /** The records that are looked for: a refused call's record never is. */
  function Usable(cfg: Config, results: seq<ToolRecord>): seq<ToolRecord> {
    if results == [] then [] else (if cfg.refusal(results[0].key).None? then [results[0]] else []) + Usable(cfg, results[1..])
  }

  lemma {:induction false} UsableConcat(cfg: Config, a: seq<ToolRecord>, b: seq<ToolRecord>)
    ensures Usable(cfg, a + b) == Usable(cfg, a) + Usable(cfg, b)
  {
    if a == [] {
      Unit(b);
      Unit(Usable(cfg, b));
    } else {
      UsableConcat(cfg, a[1..], b);
      TailOfConcat(a, b, 1);
      Assoc(if cfg.refusal(a[0].key).None? then [a[0]] else [], Usable(cfg, a[1..]), Usable(cfg, b));
    }
  }

  lemma {:induction false} UsableTaken(cfg: Config, results: seq<ToolRecord>, key: ToolKey)
    requires cfg.refusal(key).None?
    ensures ResultOf(results, key) == ResultOf(Usable(cfg, results), key)
    ensures Usable(cfg, WithoutResult(results, key)) == WithoutResult(Usable(cfg, results), key)
  {
    if results != [] {
      var r, rest := results[0], results[1..];
      UsableTaken(cfg, rest, key);
      assert ([r] + Usable(cfg, rest))[1..] == Usable(cfg, rest);
      assert ([r] + WithoutResult(rest, key))[1..] == WithoutResult(rest, key);
      Unit(Usable(cfg, rest));
      Unit(Usable(cfg, WithoutResult(rest, key)));
    }
  }

  function RecordOf(cfg: Config, call: ToolCall, o: Outcome): ToolRecord {
    ToolRecord(KeyOf(call), Record(cfg, o))
  }

  lemma UsableOne(cfg: Config, r: ToolRecord)
    ensures Usable(cfg, [r]) == if cfg.refusal(r.key).None? then [r] else []
  {
    assert [r][1..] == [];
    Unit(if cfg.refusal(r.key).None? then [r] else []);
  }

  /** A recorded result gives the model the same message exactly if it survived recording. */
  lemma ReplayedMessage(cfg: Config, call: ToolCall, o: Outcome)
    requires !o.Fatal? && cfg.refusal(KeyOf(call)).None?
    ensures var p := Replayed(Record(cfg, o));
            !p.Fatal? && (ToolMessage(cfg, call, p) == ToolMessage(cfg, call, o) <==> Faithful(cfg, Invocation(KeyOf(call), o)))
  {
    assert |ErrorContent(cfg, "")| > 0;
  }

  lemma SimCall(cfg: Config, env: Env, call: ToolCall, exchanges: seq<Exchange>, results: seq<ToolRecord>, tail: seq<ToolRecord>)
    requires env.Live? && !RunCall(cfg, env, call).0.Fatal?
    requires Usable(cfg, results) == Usable(cfg, [RecordOf(cfg, call, RunCall(cfg, env, call).0)]) + tail
    ensures RunCall(cfg, env, call).1.Live?
    ensures var o := RunCall(cfg, env, call).0;
            var (p, again) := RunCall(cfg, Replaying(exchanges, results), call);
            && !p.Fatal? && again.Replaying? && again.exchanges == exchanges && Usable(cfg, again.results) == tail
            && (ToolMessage(cfg, call, p) == ToolMessage(cfg, call, o) <==> Faithful(cfg, Invocation(KeyOf(call), o)))
  {
    var o := RunCall(cfg, env, call).0;
    var r := RecordOf(cfg, call, o);
    UsableOne(cfg, r);
    Unit(tail);
    if cfg.refusal(KeyOf(call)).None? {
      UsableTaken(cfg, results, KeyOf(call));
      assert ([r] + tail)[1..] == tail;
      ReplayedMessage(cfg, call, o);
    }
  }

  lemma ConsEqual<T>(x: T, a: seq<T>, y: T, b: seq<T>)
    ensures [x] + a == [y] + b <==> x == y && a == b
  {
    if [x] + a == [y] + b {
      assert ([x] + a)[0] == ([y] + b)[0];
      assert ([x] + a)[1..] == a && ([y] + b)[1..] == b;
    }
  }

  /** The calls of one reply, run again: the same messages exactly if all their results survived recording. */
  lemma {:induction false} SimCalls(cfg: Config, env: Env, calls: seq<ToolCall>, exchanges: seq<Exchange>, results: seq<ToolRecord>, tail: seq<ToolRecord>)
    requires env.Live? && RunCalls(cfg, env, calls).ok
    requires Usable(cfg, results) == Usable(cfg, RecordsOf(cfg, RunCalls(cfg, env, calls).ran)) + tail
    ensures var l := RunCalls(cfg, env, calls);
            var r := RunCalls(cfg, Replaying(exchanges, results), calls);
            && l.env.Live?
            && r.ok && r.env.Replaying? && r.env.exchanges == exchanges && Usable(cfg, r.env.results) == tail
            && |r.messages| == |l.messages| == |calls|
            && (r.messages == l.messages <==> AllFaithful(cfg, l.ran))
    decreases |calls|
  {
    if calls == [] {
      Unit(tail);
    } else {
      var (o, env') := RunCall(cfg, env, calls[0]);
      var rest := RunCalls(cfg, env', calls[1..]);
      var record := RecordOf(cfg, calls[0], o);
      TailOfCons(Invocation(KeyOf(calls[0]), o), rest.ran);
      UsableConcat(cfg, [record], RecordsOf(cfg, rest.ran));
      Assoc(Usable(cfg, [record]), Usable(cfg, RecordsOf(cfg, rest.ran)), tail);
      SimCall(cfg, env, calls[0], exchanges, results, Usable(cfg, RecordsOf(cfg, rest.ran)) + tail);
      var (p, again) := RunCall(cfg, Replaying(exchanges, results), calls[0]);
      SimCalls(cfg, env', calls[1..], exchanges, again.results, tail);
      ConsEqual(ToolMessage(cfg, calls[0], p), RunCalls(cfg, again, calls[1..]).messages, ToolMessage(cfg, calls[0], o), rest.messages);
    }
  }

  lemma TailOfCons<T>(x: T, a: seq<T>)
    ensures ([x] + a)[0] == x && ([x] + a)[1..] == a
  {
  }

  // ---- One turn, live and again ----

  /** The records still to be made live are what the replaying environment has left. */
  predicate Pending(cfg: Config, env: Env, rest: seq<Rec>) {
    env.Replaying? && env.exchanges == ExchangesOf(rest) && Usable(cfg, env.results) == Usable(cfg, ResultsOf(cfg, rest))
  }

  /** The live task t and its copy u have the same messages, and u has left what t will record. */
  predicate Matches(cfg: Config, t: Task, u: Task, rest: seq<Rec>) {
    t.env.Live? && u.messages == t.messages && Pending(cfg, u.env, rest)
  }

  lemma SimAsk(cfg: Config, t: Task, u: Task, purpose: Purpose, req: Request, rest: seq<Rec>)
    requires Ask(t, purpose, req).0.Some?
    requires Matches(cfg, t, u, [Called(purpose, req, Ask(t, purpose, req).0.value)] + rest)
    ensures Ask(u, purpose, req).0 == Ask(t, purpose, req).0
    ensures Matches(cfg, Ask(t, purpose, req).1, Ask(u, purpose, req).1, rest)
    ensures AskedOf(Ask(u, purpose, req).1.recs) == AskedOf(u.recs) + [Asked(purpose, req)]
  {
    var reply := Ask(t, purpose, req).0.value;
    var rec := Called(purpose, req, reply);
    RecsConcat(cfg, [rec], rest);
    OneRec(cfg, rec);
    Unit(ResultsOf(cfg, rest));
    TailOfCons(Exchange(req, reply), ExchangesOf(rest));
    RecsConcat(cfg, u.recs, [rec]);
  }

  /** What a task has recorded since. */
  predicate Grew(t: Task, added: seq<Rec>, later: Task) {
    later.recs == t.recs + added
  }

  lemma SimCompact(cfg: Config, t: Task, u: Task, base: nat, added: seq<Rec>, rest: seq<Rec>)
    requires base <= |t.messages| && Compact(cfg, t, base).Ready? && Grew(t, added, Compact(cfg, t, base).task)
    requires Matches(cfg, t, u, added + rest)
    ensures Compact(cfg, u, base).Ready? && Matches(cfg, Compact(cfg, t, base).task, Compact(cfg, u, base).task, rest)
    ensures AskedOf(Compact(cfg, u, base).task.recs) == AskedOf(u.recs) + AskedOf(added) && FaithfulRecs(cfg, added)
  {
    match Cut(cfg.compactor, t.messages, base)
    case None =>
      Unit(t.recs);
      Cancel(t.recs, added, []);
      Unit(rest);
      Unit(AskedOf(u.recs));
    case Some(cut) =>
      var req := SummaryRequest(cfg, cfg.compactor.instructions, t.messages[base..cut]);
      var rec := Called(Summarizing, req, Ask(t, Summarizing, req).0.value);
      Cancel(t.recs, added, [rec]);
      SimAsk(cfg, t, u, Summarizing, req, rest);
      OneRec(cfg, rec);
  }

  lemma SimTools(cfg: Config, t: Task, u: Task, reply: Response, added: seq<Rec>, rest: seq<Rec>)
    requires reply.calls != [] && Continue(cfg, t, reply).Next? && Grew(t, added, Continue(cfg, t, reply).task)
    requires Matches(cfg, t, u, added + rest)
    ensures var x, y := Continue(cfg, t, reply).task, Continue(cfg, u, reply);
            && y.Next? && x.env.Live? && Pending(cfg, y.task.env, rest)
            && AskedOf(y.task.recs) == AskedOf(u.recs) + AskedOf(added)
            && |y.task.messages| == |x.messages|
            && (y.task.messages == x.messages <==> FaithfulRecs(cfg, added))
            && x.messages[..|t.messages| + 1] == y.task.messages[..|t.messages| + 1]
  {
    var l := RunCalls(cfg, t.env, reply.calls);
    Cancel(t.recs, added, [Ran(l.ran)]);
    OneRec(cfg, Ran(l.ran));
    RecsConcat(cfg, added, rest);
    UsableConcat(cfg, RecordsOf(cfg, l.ran), ResultsOf(cfg, rest));
    Unit(ExchangesOf(rest));
    SimCalls(cfg, t.env, reply.calls, u.env.exchanges, u.env.results, Usable(cfg, ResultsOf(cfg, rest)));
    var r := RunCalls(cfg, u.env, reply.calls);
    OneRec(cfg, Ran(r.ran));
    RecsConcat(cfg, u.recs, [Ran(r.ran)]);
    SameAfter(t.messages + [reply.message], r.messages, l.messages);
  }

  lemma SameAfter<T>(a: seq<T>, b: seq<T>, c: seq<T>)
    ensures a + b == a + c <==> b == c
    ensures (a + b)[..|a|] == a && (a + c)[..|a|] == a
  {
    if a + b == a + c {
      Cancel(a, b, c);
    }
  }

  lemma SimAnswer(cfg: Config, t: Task, u: Task, reply: Response, added: seq<Rec>, rest: seq<Rec>)
    requires reply.calls == [] && Grew(t, added, Continue(cfg, t, reply).task)
    requires Matches(cfg, t, u, added + rest)
    ensures var x, y := Continue(cfg, t, reply), Continue(cfg, u, reply);
            && added == [] && Matches(cfg, x.task, y.task, rest) && y.task.recs == u.recs
            && (y.Next? <==> x.Next?) && (y.Answered? <==> x.Answered?)
            && (x.Answered? ==> y.answer == x.answer)
  {
    Unit(t.recs);
    Cancel(t.recs, added, []);
    Unit(rest);
  }

  /** Two lists of messages that part after the latest tool-call reply. */
  ghost predicate Parted(base: nat, a: seq<Message>, b: seq<Message>) {
    exists c: nat :: PartedAt(base, a, b, c)
  }

  predicate PartedAt(base: nat, a: seq<Message>, b: seq<Message>, c: nat) {
    && base <= c <= |a| == |b| && a[..c] == b[..c] && a != b
    && (forall i :: c <= i < |a| ==> !IsToolReply(a[i]) && !IsToolReply(b[i]))
  }

  lemma {:induction false} ResultsAreNotReplies(cfg: Config, env: Env, calls: seq<ToolCall>)
    ensures forall i :: 0 <= i < |RunCalls(cfg, env, calls).messages| ==> !IsToolReply(RunCalls(cfg, env, calls).messages[i])
    decreases |calls|
  {
    if calls != [] {
      ResultsAreNotReplies(cfg, RunCall(cfg, env, calls[0]).1, calls[1..]);
    }
  }

  lemma SimToolsPart(cfg: Config, t: Task, u: Task, base: nat, reply: Response)
    requires base <= |t.messages| && u.messages == t.messages && reply.calls != []
    requires var x, y := Continue(cfg, t, reply).task, Continue(cfg, u, reply).task;
             |x.messages| == |y.messages| && x.messages != y.messages
    ensures Parted(base, Continue(cfg, t, reply).task.messages, Continue(cfg, u, reply).task.messages)
  {
    ResultsAreNotReplies(cfg, t.env, reply.calls);
    ResultsAreNotReplies(cfg, u.env, reply.calls);
    var x, y := Continue(cfg, t, reply).task.messages, Continue(cfg, u, reply).task.messages;
    var head := t.messages + [reply.message];
    assert x == head + RunCalls(cfg, t.env, reply.calls).messages && y == head + RunCalls(cfg, u.env, reply.calls).messages;
    assert PartedAt(base, x, y, |head|);
  }

  lemma CompactRecords(cfg: Config, t: Task, base: nat) returns (added: seq<Rec>)
    requires base <= |t.messages| && Compact(cfg, t, base).Ready?
    ensures Grew(t, added, Compact(cfg, t, base).task) && AskedOf(added) == CompactAsked(cfg, t, base)
  {
    match Cut(cfg.compactor, t.messages, base)
    case None =>
      added := [];
      Unit(t.recs);
    case Some(cut) =>
      var req := SummaryRequest(cfg, cfg.compactor.instructions, t.messages[base..cut]);
      var rec := Called(Summarizing, req, Ask(t, Summarizing, req).0.value);
      added := [rec];
      OneRec(cfg, rec);
  }

  /** The request that compaction makes before the next one to the agent's own model. */
  function CompactAsked(cfg: Config, t: Task, base: nat): seq<Asked>
    requires base <= |t.messages| && Compact(cfg, t, base).Ready?
  {
    match Cut(cfg.compactor, t.messages, base)
    case None => []
    case Some(cut) => [Asked(Summarizing, SummaryRequest(cfg, cfg.compactor.instructions, t.messages[base..cut]))]
  }

  function NextMain(cfg: Config, t: Task, base: nat): Request
    requires base <= |t.messages| && Compact(cfg, t, base).Ready?
  {
    MainRequest(cfg, Compact(cfg, t, base).task.messages)
  }

  lemma ContinueRecords(cfg: Config, t: Task, reply: Response) returns (added: seq<Rec>)
    ensures Grew(t, added, Continue(cfg, t, reply).task) && AskedOf(added) == []
  {
    if reply.calls == [] {
      added := [];
      Unit(t.recs);
    } else {
      added := [Ran(RunCalls(cfg, t.env, reply.calls).ran)];
      OneRec(cfg, added[0]);
    }
  }

  /** The three parts of a turn that does not fail, and what each records. */
  lemma RoundParts(cfg: Config, t: Task, base: nat) returns (a1: seq<Rec>, reply: Response, a3: seq<Rec>)
    requires base <= |t.messages| && !Round(cfg, t, base).Failed?
    ensures Compact(cfg, t, base).Ready?
    ensures var c := Compact(cfg, t, base).task;
            var (r, asked) := Ask(c, Answering, NextMain(cfg, t, base));
            && r == Some(reply) && Round(cfg, t, base) == Continue(cfg, asked, reply)
            && Grew(t, a1, c) && AskedOf(a1) == CompactAsked(cfg, t, base)
            && Grew(c, [Called(Answering, NextMain(cfg, t, base), reply)], asked)
            && Grew(asked, a3, Round(cfg, t, base).task) && AskedOf(a3) == []
  {
    a1 := CompactRecords(cfg, t, base);
    var (r, asked) := Ask(Compact(cfg, t, base).task, Answering, NextMain(cfg, t, base));
    reply := r.value;
    a3 := ContinueRecords(cfg, asked, reply);
  }

  lemma Chain(t: Task, a: seq<Rec>, c: Task, b: seq<Rec>, d: Task, e: seq<Rec>, f: Task)
    requires Grew(t, a, c) && Grew(c, b, d) && Grew(d, e, f)
    ensures Grew(t, a + (b + e), f)
  {
    Assoc(t.recs, a, b + e);
    Assoc(t.recs + a, b, e);
  }

  /** A turn run again: the same requests, and the same messages exactly if the turn's tool results survived recording. */
  lemma SimRound(cfg: Config, t: Task, u: Task, base: nat, added: seq<Rec>, rest: seq<Rec>)
    requires base <= |t.messages| && !Round(cfg, t, base).Failed? && Grew(t, added, Round(cfg, t, base).task)
    requires Matches(cfg, t, u, added + rest)
    ensures var x, y := Round(cfg, t, base), Round(cfg, u, base);
            && (y.Next? <==> x.Next?) && (y.Answered? <==> x.Answered?)
            && x.task.env.Live? && Pending(cfg, y.task.env, rest)
            && AskedOf(y.task.recs) == AskedOf(u.recs) + AskedOf(added)
            && (y.task.messages == x.task.messages <==> FaithfulRecs(cfg, added))
            && (x.Answered? ==> FaithfulRecs(cfg, added) && y.answer == x.answer)
            && (!FaithfulRecs(cfg, added) ==> Parted(base, x.task.messages, y.task.messages))
  {
    var a1, reply, a3 := RoundParts(cfg, t, base);
    var main := Called(Answering, NextMain(cfg, t, base), reply);
    var c := Compact(cfg, t, base).task;
    var asked := Ask(c, Answering, main.request).1;
    Chain(t, a1, c, [main], asked, a3, Round(cfg, t, base).task);
    Cancel(t.recs, added, a1 + ([main] + a3));
    Assoc(a1, [main] + a3, rest);
    Assoc([main], a3, rest);
    SimCompact(cfg, t, u, base, a1, [main] + (a3 + rest));
    var d := Compact(cfg, u, base).task;
    SimAsk(cfg, c, d, Answering, main.request, a3 + rest);
    var again := Ask(d, Answering, main.request).1;
    RecsConcat(cfg, a1, [main] + a3);
    RecsConcat(cfg, [main], a3);
    OneRec(cfg, main);
    Assoc(AskedOf(u.recs), AskedOf(a1), AskedOf([main]) + AskedOf(a3));
    Assoc(AskedOf(u.recs) + AskedOf(a1), AskedOf([main]), AskedOf(a3));
    Unit(AskedOf(again.recs));
    CompactKeepsBase(cfg, t, base);
    if reply.calls == [] {
      SimAnswer(cfg, asked, again, reply, a3, rest);
    } else {
      SimTools(cfg, asked, again, reply, a3, rest);
      if !FaithfulRecs(cfg, a3) {
        SimToolsPart(cfg, asked, again, base, reply);
      }
    }
  }

  // ---- A difference shows in the next request ----

  lemma DifferAfter<T>(a: seq<T>, b: seq<T>, c: nat) returns (i: nat)
    requires c <= |a| == |b| && a != b && a[..c] == b[..c]
    ensures c <= i < |a| && a[i] != b[i]
  {
    assert forall j :: 0 <= j < c ==> a[j] == a[..c][j] == b[j];
    i :| 0 <= i < |a| && a[i] != b[i];
  }

  lemma EndsDiffer<T>(a: seq<T>, b: seq<T>, k: nat)
    requires 1 <= k <= |a| && k <= |b| && a[|a| - k] != b[|b| - k]
    ensures a != b
  {
  }

  lemma CompactEnds(cfg: Config, t: Task, base: nat, c: nat, i: nat)
    requires base <= c <= i < |t.messages| && Compact(cfg, t, base).Ready?
    requires forall j :: c <= j < |t.messages| ==> !IsToolReply(t.messages[j])
    ensures var out := Compact(cfg, t, base).task.messages;
            |t.messages| - i <= |out| && out[|out| - (|t.messages| - i)] == t.messages[i]
  {
  }

  lemma MainRequestsDiffer(cfg: Config, x: Task, y: Task, base: nat)
    requires base <= |x.messages| && base <= |y.messages| && Compact(cfg, x, base).Ready? && Compact(cfg, y, base).Ready?
    requires Parted(base, x.messages, y.messages)
    ensures NextMain(cfg, x, base) != NextMain(cfg, y, base)
  {
    var c: nat :| PartedAt(base, x.messages, y.messages, c);
    var i := DifferAfter(x.messages, y.messages, c);
    CompactEnds(cfg, x, base, c, i);
    CompactEnds(cfg, y, base, c, i);
    EndsDiffer(Compact(cfg, x, base).task.messages, Compact(cfg, y, base).task.messages, |x.messages| - i);
  }

  lemma NextAskedDiffer(cfg: Config, x: Task, y: Task, base: nat, more: seq<Asked>, other: seq<Asked>)
    requires base <= |x.messages| && base <= |y.messages| && Compact(cfg, x, base).Ready? && Compact(cfg, y, base).Ready?
    requires Parted(base, x.messages, y.messages)
    ensures CompactAsked(cfg, x, base) + ([Asked(Answering, NextMain(cfg, x, base))] + more)
         != CompactAsked(cfg, y, base) + ([Asked(Answering, NextMain(cfg, y, base))] + other)
  {
    MainRequestsDiffer(cfg, x, y, base);
    var a := CompactAsked(cfg, x, base) + ([Asked(Answering, NextMain(cfg, x, base))] + more);
    var b := CompactAsked(cfg, y, base) + ([Asked(Answering, NextMain(cfg, y, base))] + other);
    if |CompactAsked(cfg, x, base)| == |CompactAsked(cfg, y, base)| {
      assert a[|CompactAsked(cfg, x, base)|] != b[|CompactAsked(cfg, x, base)|];
    } else {
      assert a[0].purpose != b[0].purpose;
    }
  }

  lemma RoundRecords(cfg: Config, t: Task, base: nat) returns (added: seq<Rec>)
    requires base <= |t.messages| && !Round(cfg, t, base).Failed?
    ensures Compact(cfg, t, base).Ready? && Grew(t, added, Round(cfg, t, base).task)
    ensures AskedOf(added) == CompactAsked(cfg, t, base) + [Asked(Answering, NextMain(cfg, t, base))]
  {
    var a1, reply, a3 := RoundParts(cfg, t, base);
    var main := Called(Answering, NextMain(cfg, t, base), reply);
    var c := Compact(cfg, t, base).task;
    Chain(t, a1, c, [main], Ask(c, Answering, main.request).1, a3, Round(cfg, t, base).task);
    added := a1 + ([main] + a3);
    RecsConcat(cfg, a1, [main] + a3);
    RecsConcat(cfg, [main], a3);
    OneRec(cfg, main);
    Unit(AskedOf([main]));
  }

  lemma {:induction false} LoopRecords(cfg: Config, t: Task, base: nat, n: nat) returns (added: seq<Rec>)
    requires base <= |t.messages| && Loop(cfg, t, base, n).Answered?
    ensures Compact(cfg, t, base).Ready? && Grew(t, added, Loop(cfg, t, base, n).task)
    ensures exists more :: AskedOf(added) == CompactAsked(cfg, t, base) + ([Asked(Answering, NextMain(cfg, t, base))] + more)
    decreases n
  {
    RoundKeepsBase(cfg, t, base);
    var turn := Round(cfg, t, base);
    var now := RoundRecords(cfg, t, base);
    var later: seq<Rec> := [];
    if turn.Next? {
      later := LoopRecords(cfg, turn.task, base, n - 1);
    } else {
      Unit(turn.task.recs);
    }
    added := now + later;
    Assoc(t.recs, now, later);
    RecsConcat(cfg, now, later);
    Assoc(CompactAsked(cfg, t, base), [Asked(Answering, NextMain(cfg, t, base))], AskedOf(later));
  }

  /** Once the messages part, the requests do. */
  lemma PartedRequestsDiffer(cfg: Config, x: Task, y: Task, base: nat, n: nat, rest: seq<Rec>)
    requires base <= |x.messages| && base <= |y.messages| && Parted(base, x.messages, y.messages)
    requires Loop(cfg, x, base, n).Answered? && Grew(x, rest, Loop(cfg, x, base, n).task) && Loop(cfg, y, base, n).Answered?
    ensures AskedOf(Loop(cfg, y, base, n).task.recs) != AskedOf(y.recs) + AskedOf(rest)
  {
    var a := LoopRecords(cfg, x, base, n);
    var b := LoopRecords(cfg, y, base, n);
    Cancel(x.recs, rest, a);
    RecsConcat(cfg, y.recs, b);
    var more :| AskedOf(a) == CompactAsked(cfg, x, base) + ([Asked(Answering, NextMain(cfg, x, base))] + more);
    var other :| AskedOf(b) == CompactAsked(cfg, y, base) + ([Asked(Answering, NextMain(cfg, y, base))] + other);
    NextAskedDiffer(cfg, x, y, base, more, other);
    SameAfter(AskedOf(y.recs), AskedOf(a), AskedOf(b));
  }

  // ---- The whole task ----

  /** The copy r of the task l ends with the same answer, messages and requests, and has used every recorded response. */
  predicate Reproduces(r: Turn, l: Turn, asked: seq<Asked>) {
    && l.Answered? && r.Answered? && r.answer == l.answer && r.task.messages == l.task.messages
    && AskedOf(r.task.recs) == asked
    && r.task.env.Replaying? && r.task.env.exchanges == []
  }

  /** What the records still to be made say about the copy u of t. */
  predicate Simulates(cfg: Config, l: Turn, u: Task, r: Turn, rest: seq<Rec>) {
    var asked := AskedOf(u.recs) + AskedOf(rest);
    if FaithfulRecs(cfg, rest) then Reproduces(r, l, asked) else !(r.Answered? && AskedOf(r.task.recs) == asked)
  }

  lemma SimThen(cfg: Config, l: Turn, u: Task, v: Task, r: Turn, added: seq<Rec>, later: seq<Rec>)
    requires AskedOf(v.recs) == AskedOf(u.recs) + AskedOf(added) && FaithfulRecs(cfg, added) && Simulates(cfg, l, v, r, later)
    ensures Simulates(cfg, l, u, r, added + later)
  {
    RecsConcat(cfg, added, later);
    Assoc(AskedOf(u.recs), AskedOf(added), AskedOf(later));
  }

  lemma SimThenParted(cfg: Config, base: nat, turn: Task -> Turn, x: Task, y: Task, n: nat, u: Task, added: seq<Rec>, later: seq<Rec>)
    requires PartingShows(base, turn) && Parted(base, x.messages, y.messages) && !FaithfulRecs(cfg, added)
    requires base <= |x.messages| && base <= |y.messages| && Iterate(turn, x, n).Answered? && Grew(x, later, Iterate(turn, x, n).task)
    requires AskedOf(y.recs) == AskedOf(u.recs) + AskedOf(added)
    ensures Simulates(cfg, Iterate(turn, x, n), u, Iterate(turn, y, n), added + later)
  {
    RecsConcat(cfg, added, later);
    Assoc(AskedOf(u.recs), AskedOf(added), AskedOf(later));
    assert Iterate(turn, y, n).Answered? ==> Apart(base, turn, x, y, n, later);
  }

  lemma SplitRecords(t: Task, x: Task, added: seq<Rec>, later: seq<Rec>, rest: seq<Rec>, end: Task)
    requires Grew(t, added, x) && Grew(x, later, end) && Grew(t, rest, end)
    ensures rest == added + later
  {
    Assoc(t.recs, added, later);
    Cancel(t.recs, rest, added + later);
  }

  // The induction over turns sees a turn only through what is proved about it.

  function Iterate(turn: Task -> Turn, t: Task, n: nat): Turn
    decreases n
  {
    if n == 0 then Failed(t)
    else
      match turn(t)
      case Next(t') => Iterate(turn, t', n - 1)
      case end => end
  }

  function TurnOf(cfg: Config, base: nat): Task -> Turn {
    (t: Task) => if base <= |t.messages| then Round(cfg, t, base) else Failed(t)
  }

  lemma {:induction false} LoopIterates(cfg: Config, t: Task, base: nat, n: nat)
    requires base <= |t.messages|
    ensures Loop(cfg, t, base, n) == Iterate(TurnOf(cfg, base), t, n)
    decreases n
  {
    if n > 0 {
      RoundKeepsBase(cfg, t, base);
      if Round(cfg, t, base).Next? {
        LoopIterates(cfg, Round(cfg, t, base).task, base, n - 1);
      }
    }
  }

  predicate TurnsTo(base: nat, turn: Task -> Turn, t: Task, added: seq<Rec>) {
    base <= |t.messages| && !turn(t).Failed? && Grew(t, added, turn(t).task)
  }

  /** What SimRound says of one turn and its copy. */
  ghost predicate TurnSimulated(cfg: Config, base: nat, turn: Task -> Turn, t: Task, u: Task, added: seq<Rec>, rest: seq<Rec>) {
    var x, y := turn(t), turn(u);
    && (y.Next? <==> x.Next?) && (y.Answered? <==> x.Answered?)
    && x.task.env.Live? && Pending(cfg, y.task.env, rest)
    && AskedOf(y.task.recs) == AskedOf(u.recs) + AskedOf(added)
    && (y.task.messages == x.task.messages <==> FaithfulRecs(cfg, added))
    && (x.Answered? ==> FaithfulRecs(cfg, added) && y.answer == x.answer)
    && (!FaithfulRecs(cfg, added) ==> Parted(base, x.task.messages, y.task.messages))
  }

  ghost predicate TurnsSimulated(cfg: Config, base: nat, turn: Task -> Turn) {
    forall t: Task, u: Task, added: seq<Rec>, rest: seq<Rec> ::
      TurnsTo(base, turn, t, added) && Matches(cfg, t, u, added + rest) ==> TurnSimulated(cfg, base, turn, t, u, added, rest)
  }

  predicate TurnRecords(base: nat, turn: Task -> Turn, t: Task) {
    base <= |t.messages| ==>
      base <= |turn(t).task.messages| && (!turn(t).Failed? ==> Grew(t, Since(t, turn(t).task), turn(t).task))
  }

  ghost predicate TurnsRecord(base: nat, turn: Task -> Turn) {
    forall t: Task :: TurnRecords(base, turn, t)
  }

  function Since(t: Task, later: Task): seq<Rec> {
    if |t.recs| <= |later.recs| then later.recs[|t.recs|..] else []
  }

  ghost predicate PartingShows(base: nat, turn: Task -> Turn) {
    forall x: Task, y: Task, n: nat, rest: seq<Rec> ::
      Apart(base, turn, x, y, n, rest) ==> AskedOf(Iterate(turn, y, n).task.recs) != AskedOf(y.recs) + AskedOf(rest)
  }

  ghost predicate Apart(base: nat, turn: Task -> Turn, x: Task, y: Task, n: nat, rest: seq<Rec>) {
    && base <= |x.messages| && base <= |y.messages| && Parted(base, x.messages, y.messages)
    && Iterate(turn, x, n).Answered? && Grew(x, rest, Iterate(turn, x, n).task) && Iterate(turn, y, n).Answered?
  }

  lemma {:induction false} IterateRecords(base: nat, turn: Task -> Turn, t: Task, n: nat) returns (added: seq<Rec>)
    requires TurnsRecord(base, turn) && base <= |t.messages| && Iterate(turn, t, n).Answered?
    ensures Grew(t, added, Iterate(turn, t, n).task)
    decreases n
  {
    assert TurnRecords(base, turn, t);
    var x := turn(t);
    added := Since(t, x.task);
    if x.Next? {
      var later := IterateRecords(base, turn, x.task, n - 1);
      Assoc(t.recs, added, later);
      added := added + later;
    }
  }

  lemma SimLast(cfg: Config, base: nat, turn: Task -> Turn, t: Task, u: Task, rest: seq<Rec>)
    requires TurnsSimulated(cfg, base, turn) && TurnsRecord(base, turn)
    requires base <= |t.messages| && turn(t).Answered? && Grew(t, rest, turn(t).task) && Matches(cfg, t, u, rest)
    ensures turn(u).Answered? && Simulates(cfg, turn(t), u, turn(u), rest)
  {
    assert TurnRecords(base, turn, t);
    Cancel(t.recs, Since(t, turn(t).task), rest);
    Unit(rest);
    assert TurnSimulated(cfg, base, turn, t, u, rest, []);
  }

  /** A turn after which the live task goes on to `end`. */
  lemma SimNext(cfg: Config, base: nat, turn: Task -> Turn, t: Task, u: Task, rest: seq<Rec>, later: seq<Rec>, end: Task)
    returns (added: seq<Rec>)
    requires TurnsSimulated(cfg, base, turn) && TurnsRecord(base, turn)
    requires base <= |t.messages| && turn(t).Next? && Grew(t, rest, end) && Grew(turn(t).task, later, end) && Matches(cfg, t, u, rest)
    ensures rest == added + later && turn(u).Next? && AskedOf(turn(u).task.recs) == AskedOf(u.recs) + AskedOf(added)
    ensures if FaithfulRecs(cfg, added) then Matches(cfg, turn(t).task, turn(u).task, later) else Parted(base, turn(t).task.messages, turn(u).task.messages)
  {
    assert TurnRecords(base, turn, t);
    added := Since(t, turn(t).task);
    SplitRecords(t, turn(t).task, added, later, rest, end);
    assert TurnSimulated(cfg, base, turn, t, u, added, later);
  }

  lemma {:induction false} SimIterate(cfg: Config, base: nat, turn: Task -> Turn, t: Task, u: Task, n: nat, rest: seq<Rec>)
    requires TurnsSimulated(cfg, base, turn) && TurnsRecord(base, turn) && PartingShows(base, turn)
    requires base <= |t.messages| && Iterate(turn, t, n).Answered? && Grew(t, rest, Iterate(turn, t, n).task)
    requires Matches(cfg, t, u, rest)
    ensures Simulates(cfg, Iterate(turn, t, n), u, Iterate(turn, u, n), rest)
    decreases n, 1
  {
    assert TurnRecords(base, turn, t) && TurnRecords(base, turn, u);
    if turn(t).Answered? {
      SimLast(cfg, base, turn, t, u, rest);
    } else {
      SimGoesOn(cfg, base, turn, t, u, turn(t).task, turn(u).task, n, rest);
    }
  }

  lemma {:induction false} SimGoesOn(cfg: Config, base: nat, turn: Task -> Turn, t: Task, u: Task, x: Task, y: Task, n: nat, rest: seq<Rec>)
    requires TurnsSimulated(cfg, base, turn) && TurnsRecord(base, turn) && PartingShows(base, turn)
    requires base <= |t.messages| && n > 0 && turn(t) == Next(x) && y == turn(u).task && base <= |x.messages| && (turn(u).Next? ==> base <= |y.messages|)
    requires Iterate(turn, t, n).Answered? && Grew(t, rest, Iterate(turn, t, n).task) && Matches(cfg, t, u, rest)
    ensures Simulates(cfg, Iterate(turn, t, n), u, Iterate(turn, u, n), rest)
    decreases n, 0
  {
    var l, r := Iterate(turn, x, n - 1), Iterate(turn, y, n - 1);
    var later := IterateRecords(base, turn, x, n - 1);
    var added := SimNext(cfg, base, turn, t, u, rest, later, l.task);
    if FaithfulRecs(cfg, added) {
      SimIterate(cfg, base, turn, x, y, n - 1, later);
      SimThen(cfg, l, u, y, r, added, later);
    } else {
      SimThenParted(cfg, base, turn, x, y, n - 1, u, added, later);
    }
  }

  lemma TurnOfSimulated(cfg: Config, base: nat)
    ensures TurnsSimulated(cfg, base, TurnOf(cfg, base))
  {
    var turn := TurnOf(cfg, base);
    forall t: Task, u: Task, added: seq<Rec>, rest: seq<Rec> | TurnsTo(base, turn, t, added) && Matches(cfg, t, u, added + rest)
      ensures TurnSimulated(cfg, base, turn, t, u, added, rest)
    {
      SimRound(cfg, t, u, base, added, rest);
    }
  }

  lemma TurnOfRecords(cfg: Config, base: nat)
    ensures TurnsRecord(base, TurnOf(cfg, base))
  {
    forall t: Task ensures TurnRecords(base, TurnOf(cfg, base), t) {
      if base <= |t.messages| {
        RoundKeepsBase(cfg, t, base);
        if !Round(cfg, t, base).Failed? {
          var added := RoundRecords(cfg, t, base);
          SinceIs(t, added, Round(cfg, t, base).task);
        }
      }
    }
  }

  lemma SinceIs(t: Task, added: seq<Rec>, later: Task)
    requires Grew(t, added, later)
    ensures Since(t, later) == added
  {
  }

  lemma TurnOfParts(cfg: Config, base: nat)
    ensures PartingShows(base, TurnOf(cfg, base))
  {
    var turn := TurnOf(cfg, base);
    forall x: Task, y: Task, n: nat, rest: seq<Rec> | Apart(base, turn, x, y, n, rest)
      ensures AskedOf(Iterate(turn, y, n).task.recs) != AskedOf(y.recs) + AskedOf(rest)
    {
      LoopIterates(cfg, x, base, n);
      LoopIterates(cfg, y, base, n);
      PartedRequestsDiffer(cfg, x, y, base, n, rest);
    }
  }

  /** The environment that re-execution builds from a task's events. */
  function Recreated(cfg: Config, recs: seq<Rec>): Env {
    Replaying(ExchangesOf(recs), ResultsOf(cfg, recs))
  }

  /**
   * A task that ended with an answer, run again by the same loop against what its events
   * recorded, sends the same requests in the same order, builds the same messages, gives the
   * same answer and leaves no recorded response unused, exactly if every tool result
   * survived being recorded.
   */
  lemma ReExecutionIsFaithful(cfg: Config, replies: seq<Response>, outcomes: seq<Outcome>, prefix: seq<Message>, n: nat)
    requires Loop(cfg, Task(Live(replies, outcomes), prefix, []), |prefix|, n).Answered?
    ensures var l := Loop(cfg, Task(Live(replies, outcomes), prefix, []), |prefix|, n);
            var r := Loop(cfg, Task(Recreated(cfg, l.task.recs), prefix, []), |prefix|, n);
            Reproduces(r, l, AskedOf(l.task.recs)) <==> FaithfulRecs(cfg, l.task.recs)
  {
    var t := Task(Live(replies, outcomes), prefix, []);
    var l := Loop(cfg, t, |prefix|, n);
    var u := Task(Recreated(cfg, l.task.recs), prefix, []);
    Unit(l.task.recs);
    Unit(AskedOf(l.task.recs));
    TurnOfSimulated(cfg, |prefix|);
    TurnOfRecords(cfg, |prefix|);
    TurnOfParts(cfg, |prefix|);
    LoopIterates(cfg, t, |prefix|, n);
    LoopIterates(cfg, u, |prefix|, n);
    SimIterate(cfg, |prefix|, TurnOf(cfg, |prefix|), t, u, n, l.task.recs);
  }

  /** The replayer and the tool replay built from a task's events are the environment that answers its copy. */
  lemma EventsRecreate(cfg: Config, recs: seq<Rec>, events: seq<Event>)
    requires Relevant(events) == Emitted(cfg, recs, 0)
    ensures var c := Collect(NOTHING, events);
            c.Some? && Recreated(cfg, recs) == Replaying(c.value.exchanges, c.value.results)
  {
    OthersIgnored(NOTHING, events);
    CollectEmitted(cfg, recs, 0);
  }

  /** A failed call whose error says nothing is told to the copy's model as an empty output. */
  lemma SilentErrorIsLost(cfg: Config, call: ToolCall)
    requires cfg.refusal(KeyOf(call)).None?
    ensures !Faithful(cfg, Invocation(KeyOf(call), Error("")))
    ensures ToolMessage(cfg, call, Replayed(Record(cfg, Error("")))).content == ""
    ensures ToolMessage(cfg, call, Error("")).content == "{\"error\":" + cfg.quote("") + "}"
  {
  }

  /** An error that failed the task fails the copy's task exactly if it is a budget's, the loop detector's or a pause. */
  lemma FatalErrorsReplayed(cfg: Config, code: string, message: string)
    requires code != ""
    ensures Replayed(Record(cfg, Fatal(code, message))).Fatal? <==> code in {"budget_exceeded", "loop_detected", "paused"}
  {
  }
}
