/**
 * Reasoning that a model server leaves inline at the start of a reply: the function that
 * splits a whole reply, the incremental splitter that watches a streamed one, and when
 * the two agree.
 */
module Thinking {
  import opened Wrappers

  const OPEN: string := "<think>"
  const CLOSE: string := "</think>"

  predicate IsSpace(c: char) {
    c == ' ' || c == '\t' || c == '\r' || c == '\n'
  }

  function TrimLeft(s: string): string {
    if s != "" && IsSpace(s[0]) then TrimLeft(s[1..]) else s
  }

  function TrimRight(s: string): string {
    if s != "" && IsSpace(s[|s| - 1]) then TrimRight(s[..|s| - 1]) else s
  }

  function TrimSpace(s: string): string {
    TrimRight(TrimLeft(s))
  }

  function TrimPrefix(s: string, prefix: string): string {
    if prefix <= s then s[|prefix|..] else s
  }

  predicate ClosesAt(s: string, i: nat) {
    i + |CLOSE| <= |s| && s[i..i + |CLOSE|] == CLOSE
  }

  /** Where the first closing tag of s begins, from position i on. */
  function FindClose(s: string, i: nat): (k: Option<nat>)
    requires i <= |s|
    ensures k.None? ==> forall j :: i <= j ==> !ClosesAt(s, j)
    ensures k.Some? ==> i <= k.value && ClosesAt(s, k.value) && forall j :: i <= j < k.value ==> !ClosesAt(s, j)
    decreases |s| - i
  {
    if ClosesAt(s, i) then Some(i)
    else if i == |s| then None
    else FindClose(s, i + 1)
  }

  datatype Halves = Halves(before: string, after: string)

  /** What comes before and after the first closing tag of s. */
  function Cut(s: string): (h: Option<Halves>)
    ensures h.None? ==> forall j :: 0 <= j ==> !ClosesAt(s, j)
    ensures h.Some? ==> s == h.value.before + CLOSE + h.value.after
    ensures h.Some? ==> forall j :: 0 <= j < |h.value.before| ==> !ClosesAt(s, j)
  {
    match FindClose(s, 0)
    case None => None
    case Some(k) => Some(Halves(s[..k], s[k + |CLOSE|..]))
  }

  datatype Split = Split(thinking: string, rest: string)

  predicate Tagged(t: string) {
    OPEN <= t || CLOSE <= t
  }

  function Reasoning(before: string): string {
    TrimSpace(TrimPrefix(before, OPEN))
  }

  /** splitThinking, on the whole reply. */
  function SplitThinking(content: string): Split {
    var trimmed := TrimSpace(content);
    if !Tagged(trimmed) then Split("", content)
    else
      match Cut(trimmed)
      case None => Split("", content)
      case Some(h) => Split(Reasoning(h.before), TrimSpace(h.after))
  }

  // ---- The incremental splitter ----

  datatype Lead = Lead(held: string, decided: bool)

  datatype Delta = Delta(next: Lead, content: string, thinking: string)

  function PushLead(l: Lead, s: string): Delta {
    if l.decided then Delta(l, s, "")
    else
      var held := l.held + s;
      var t := TrimLeft(held);
      if t == "" || t <= OPEN || t <= CLOSE then Delta(Lead(held, false), "", "")
      else if Tagged(t) then
        match Cut(t)
        case None => Delta(Lead(held, false), "", "")
        case Some(h) => Delta(Lead(held, true), TrimLeft(h.after), Reasoning(h.before))
      else Delta(Lead(held, true), held, "")
  }

  function FlushLead(l: Lead): Delta {
    if l.decided then Delta(l, "", "") else Delta(Lead(l.held, true), l.held, "")
  }

  class LeadingThink {
    var held: string
    var decided: bool

    function State(): Lead
      reads this
    {
      Lead(held, decided)
    }

    constructor ()
      ensures State() == Lead("", false)
    {
      held, decided := "", false;
    }

    method Push(s: string) returns (content: string, thinking: string)
      modifies this
      ensures Delta(State(), content, thinking) == PushLead(old(State()), s)
    {
      if decided {
        return s, "";
      }
      held := held + s;
      var t := TrimLeft(held);
      if t == "" || t <= OPEN || t <= CLOSE {
        return "", "";
      }
      if OPEN <= t || CLOSE <= t {
        var halves := Cut(t);
        if halves.None? {
          return "", "";
        }
        decided := true;
        return TrimLeft(halves.value.after), Reasoning(halves.value.before);
      }
      decided := true;
      return held, "";
    }

    method Flush() returns (content: string)
      modifies this
      ensures Delta(State(), content, "") == FlushLead(old(State()))
    {
      if decided {
        return "";
      }
      decided := true;
      return held;
    }
  }

  function Concat(chunks: seq<string>): string {
    if chunks == [] then "" else Concat(chunks[..|chunks| - 1]) + chunks[|chunks| - 1]
  }

  /** The splitter, and the reasoning and content it has given, after the chunks were pushed. */
  datatype Progress = Progress(lead: Lead, thinking: string, content: string)

  function Feed(chunks: seq<string>): Progress {
    if chunks == [] then Progress(Lead("", false), "", "")
    else
      var p := Feed(chunks[..|chunks| - 1]);
      var d := PushLead(p.lead, chunks[|chunks| - 1]);
      Progress(d.next, p.thinking + d.thinking, p.content + d.content)
  }

  /** All the reasoning and content deltas of a streamed reply. */
  function Stream(chunks: seq<string>): Split {
    var p := Feed(chunks);
    Split(p.thinking, p.content + FlushLead(p.lead).content)
  }

  /** Feeds a reply to the splitter chunk by chunk, as the stream reader does. */
  method StreamReply(chunks: seq<string>) returns (thinking: string, content: string)
    ensures Split(thinking, content) == Stream(chunks)
  {
    var lead := new LeadingThink();
    thinking, content := "", "";
    for i := 0 to |chunks|
      invariant fresh(lead)
      invariant Progress(lead.State(), thinking, content) == Feed(chunks[..i])
    {
      assert chunks[..i + 1][..i] == chunks[..i];
      var c, t := lead.Push(chunks[i]);
      thinking, content := thinking + t, content + c;
    }
    assert chunks[..|chunks|] == chunks;
    var c := lead.Flush();
    content := content + c;
  }

  // ---- Trimming ----

  lemma {:induction false} TrimLeftIsSuffix(s: string)
    ensures var r := TrimLeft(s); |r| <= |s| && r == s[|s| - |r|..] && (r != "" ==> !IsSpace(r[0]))
  {
    if s != "" && IsSpace(s[0]) {
      TrimLeftIsSuffix(s[1..]);
    }
  }

  lemma {:induction false} TrimRightIsPrefix(s: string)
    ensures var r := TrimRight(s); |r| <= |s| && r == s[..|r|] && (r != "" ==> !IsSpace(r[|r| - 1]))
  {
    if s != "" && IsSpace(s[|s| - 1]) {
      TrimRightIsPrefix(s[..|s| - 1]);
    }
  }

  lemma {:induction false} TrimLeftConcat(a: string, b: string)
    ensures TrimLeft(a + b) == if TrimLeft(a) != "" then TrimLeft(a) + b else TrimLeft(b)
  {
    if a == "" {
      assert a + b == b;
    } else if IsSpace(a[0]) {
      assert (a + b)[1..] == a[1..] + b;
      TrimLeftConcat(a[1..], b);
    }
  }

  lemma {:induction false} TrimRightAfter(x: string, y: string)
    requires x != "" && !IsSpace(x[|x| - 1])
    ensures TrimRight(x + y) == x + TrimRight(y)
  {
    if y == "" {
      assert x + y == x;
    } else if IsSpace(y[|y| - 1]) {
      TrimRightAfter(x, y[..|y| - 1]);
      assert (x + y)[..|x + y| - 1] == x + y[..|y| - 1];
    }
  }

  lemma {:induction false} TrimRightSpaces(s: string)
    requires TrimLeft(s) == ""
    ensures TrimRight(s) == ""
  {
    if s != "" {
      TrimRightSpaces(s[1..]);
      TrimRightIsPrefix(s[1..]);
      AllSpaces(s);
      if |s| > 1 {
        TrimRightSpaces(s[..|s| - 1]);
      }
    }
  }

  lemma {:induction false} AllSpaces(s: string)
    requires TrimLeft(s) == ""
    ensures forall k :: 0 <= k < |s| ==> IsSpace(s[k])
    ensures forall k :: 0 <= k <= |s| ==> TrimLeft(s[..k]) == ""
  {
    if s != "" {
      AllSpaces(s[1..]);
      forall k | 0 < k <= |s| ensures TrimLeft(s[..k]) == "" {
        assert s[..k][1..] == s[1..][..k - 1];
      }
    }
  }

  /** Leading and trailing whitespace can be trimmed in either order. */
  lemma {:induction false} TrimsCommute(s: string)
    ensures TrimLeft(TrimRight(s)) == TrimRight(TrimLeft(s))
  {
    if s != "" {
      if IsSpace(s[0]) {
        TrimsCommute(s[1..]);
        var t := TrimLeft(s[1..]);
        if t == "" {
          TrimRightSpaces(s);
        } else {
          TrimRightPast(s);
        }
      } else {
        TrimRightAfter([s[0]], s[1..]);
        assert [s[0]] + s[1..] == s;
      }
    }
  }

  lemma {:induction false} TrimRightPast(s: string)
    requires s != "" && TrimLeft(s[1..]) != ""
    ensures TrimRight(s) == [s[0]] + TrimRight(s[1..])
  {
    var k := |s| - 1;
    if IsSpace(s[k]) {
      assert s[1..][..k - 1] == s[..k][1..];
      assert s[1..] == s[1..][..k - 1] + [s[k]];
      TrimLeftConcat(s[1..][..k - 1], [s[k]]);
      TrimRightPast(s[..k]);
    }
  }

  lemma TrimLeftStays(s: string)
    ensures TrimLeft(TrimLeft(s)) == TrimLeft(s)
  {
    TrimLeftIsSuffix(s);
  }

  lemma TrimRightStays(s: string)
    ensures TrimRight(TrimRight(s)) == TrimRight(s)
  {
    TrimRightIsPrefix(s);
  }

  lemma TrimSpaceOfTrimLeft(a: string, b: string)
    ensures TrimSpace(TrimLeft(a) + b) == TrimSpace(a + b)
  {
    var l := TrimLeft(a);
    TrimLeftConcat(a, b);
    TrimLeftConcat(l, b);
    TrimLeftStays(a);
    assert TrimLeft(l + b) == TrimLeft(a + b);
  }

  lemma TrimSpaceOfTrimRight(s: string)
    ensures TrimSpace(TrimRight(s)) == TrimSpace(s)
  {
    TrimsCommute(s);
    TrimRightStays(TrimLeft(s));
  }

  lemma TrimTwice(s: string)
    ensures TrimSpace(TrimSpace(s)) == TrimSpace(s)
  {
    TrimSpaceOfTrimRight(TrimLeft(s));
    TrimLeftStays(s);
  }

  // ---- The whole reply ----

  predicate Blank(s: string) {
    forall k :: 0 <= k < |s| ==> IsSpace(s[k])
  }

  lemma {:induction false} TrimLeftDropsBlanks(s: string)
    ensures |TrimLeft(s)| <= |s| && Blank(s[..|s| - |TrimLeft(s)|])
  {
    if s != "" && IsSpace(s[0]) {
      TrimLeftDropsBlanks(s[1..]);
      var n := |s| - |TrimLeft(s)|;
      assert s[..n] == [s[0]] + s[1..][..n - 1];
    }
  }

  lemma {:induction false} TrimRightDropsBlanks(s: string)
    ensures |TrimRight(s)| <= |s| && Blank(s[|TrimRight(s)|..])
  {
    if s != "" && IsSpace(s[|s| - 1]) {
      var shorter := s[..|s| - 1];
      TrimRightDropsBlanks(shorter);
      assert s[|TrimRight(s)|..] == shorter[|TrimRight(shorter)|..] + [s[|s| - 1]];
    }
  }

  /** Trimming drops the white space at both ends and nothing else. */
  lemma TrimSpaceIsMiddle(s: string) returns (before: string, after: string)
    ensures s == before + TrimSpace(s) + after && Blank(before) && Blank(after)
    ensures var r := TrimSpace(s); r != "" ==> !IsSpace(r[0]) && !IsSpace(r[|r| - 1])
  {
    var l := TrimLeft(s);
    TrimLeftIsSuffix(s);
    TrimLeftDropsBlanks(s);
    TrimRightIsPrefix(l);
    TrimRightDropsBlanks(l);
    before, after := s[..|s| - |l|], l[|TrimRight(l)|..];
  }

  lemma {:induction false} BlankTrims(space: string)
    requires Blank(space)
    ensures TrimLeft(space) == ""
  {
    if space != "" {
      BlankTrims(space[1..]);
    }
  }

  /** Blanks, then a text that ends in a tag, then anything: trimming stops at both ends of what is no blank. */
  lemma TrimAround(space: string, x: string, b: string)
    requires Blank(space) && x != "" && !IsSpace(x[0]) && !IsSpace(x[|x| - 1])
    ensures TrimSpace(space + x + b) == x + TrimRight(b)
  {
    BlankTrims(space);
    assert space + x + b == space + (x + b);
    TrimLeftConcat(space, x + b);
    assert TrimLeft(x + b) == x + b;
    TrimRightAfter(x, b);
  }

  /** No closing tag begins in the first |a| characters of a + CLOSE. */
  predicate Closeless(a: string) {
    forall j :: 0 <= j < |a| ==> !ClosesAt(a + CLOSE, j)
  }

  lemma FirstCut(a: string, after: string)
    requires Closeless(a)
    ensures Cut(a + CLOSE + after) == Some(Halves(a, after))
  {
    var s, n := a + CLOSE + after, |a|;
    assert s[n..n + |CLOSE|] == CLOSE;
    assert ClosesAt(s, n);
    forall j | 0 <= j < n ensures !ClosesAt(s, j) {
      assert s[j..j + |CLOSE|] == (a + CLOSE)[j..j + |CLOSE|];
      assert !ClosesAt(a + CLOSE, j);
    }
    var h := Cut(s).value;
    assert ClosesAt(s, |h.before|) by {
      assert s[|h.before|..|h.before| + |CLOSE|] == CLOSE;
    }
    assert |h.before| == n;
    assert h.before == s[..n] == a && h.after == s[n + |CLOSE|..] == after;
  }

  lemma OpenIsCloseless(a: string)
    requires Closeless(a)
    ensures Closeless(OPEN + a)
  {
    var s, n := OPEN + a + CLOSE, |OPEN|;
    forall j | 0 <= j < |OPEN + a| ensures !ClosesAt(s, j) {
      if j < n {
        assert s[j..j + |CLOSE|][0] == OPEN[j] && s[1] == OPEN[1];
        assert j == 0 ==> s[j..j + |CLOSE|][1] == OPEN[1];
      } else {
        assert s[j..j + |CLOSE|] == (a + CLOSE)[j - n..j - n + |CLOSE|];
        assert !ClosesAt(a + CLOSE, j - n);
      }
    }
  }

  /** A reply that opens with <think>, a and </think> has the reasoning a and, after it, its content, both trimmed. */
  lemma ReasoningIsSplitOff(space: string, a: string, b: string)
    requires Blank(space) && Closeless(a)
    ensures SplitThinking(space + (OPEN + a + CLOSE) + b) == Split(TrimSpace(a), TrimSpace(b))
  {
    var x := OPEN + a + CLOSE;
    TrimAround(space, x, b);
    OpenIsCloseless(a);
    FirstCut(OPEN + a, TrimRight(b));
    assert OPEN <= x + TrimRight(b);
    assert (OPEN + a)[|OPEN|..] == a;
    TrimSpaceOfTrimRight(b);
  }

  /** A reply that opens with a closing tag has no reasoning, and what follows it is its content. */
  lemma LoneCloseIsDropped(space: string, b: string)
    requires Blank(space)
    ensures SplitThinking(space + CLOSE + b) == Split("", TrimSpace(b))
  {
    TrimAround(space, CLOSE, b);
    FirstCut("", TrimRight(b));
    assert "" + CLOSE + TrimRight(b) == CLOSE + TrimRight(b);
    TrimSpaceOfTrimRight(b);
  }

  /** A reply that opens with no tag, or has no closing one, is all content. */
  lemma OthersAreContent(content: string)
    requires !Tagged(TrimSpace(content)) || forall j :: 0 <= j ==> !ClosesAt(content, j)
    ensures SplitThinking(content) == Split("", content)
  {
    var before, after := TrimSpaceIsMiddle(content);
    var trimmed := TrimSpace(content);
    if Cut(trimmed).Some? {
      var k := |Cut(trimmed).value.before|;
      assert trimmed[k..k + |CLOSE|] == CLOSE;
      assert content[|before| + k..|before| + k + |CLOSE|] == trimmed[k..k + |CLOSE|];
      assert ClosesAt(content, |before| + k);
    }
  }

  // ---- Agreement ----

  /** Nothing of a reply that begins with `held` has been passed on yet. */
  predicate Withheld(held: string) {
    var t := TrimLeft(held);
    t == "" || t <= OPEN || t <= CLOSE || (Tagged(t) && Cut(t).None?)
  }

  /** What is asked of the deltas of a reply: the same reasoning always, the same content but for one reply. */
  predicate Agrees(reply: string, deltas: Split) {
    var whole := SplitThinking(reply);
    && deltas.thinking == whole.thinking
    && (TrimSpace(deltas.rest) == TrimSpace(whole.rest) <==> TrimLeft(reply) != CLOSE)
  }

  /** A tag, or the beginning of one, has no whitespace to trim and no closing tag inside, but for CLOSE itself. */
  lemma BeginsTag(t: string)
    requires t <= OPEN || t <= CLOSE
    ensures TrimRight(t) == t
    ensures t != CLOSE ==> Cut(t).None? || !Tagged(t)
    ensures t == CLOSE ==> Cut(t) == Some(Halves("", ""))
  {
    if t == CLOSE {
      assert ClosesAt(t, 0);
    }
  }

  lemma CutNoneAfterTrim(t: string)
    requires Cut(t).None?
    ensures Cut(TrimRight(t)).None?
  {
    var r := TrimRight(t);
    TrimRightIsPrefix(t);
    if Cut(r).Some? {
      var k := |Cut(r).value.before|;
      assert ClosesAt(r, k);
      assert t[k..k + |CLOSE|] == r[k..k + |CLOSE|];
      assert ClosesAt(t, k);
    }
  }

  /** A reply that ends while withheld is passed on whole, as splitThinking does unless it is a lone closing tag. */
  lemma WithheldToTheEnd(held: string)
    requires Withheld(held)
    ensures Agrees(held, Split("", held))
  {
    var t := TrimLeft(held);
    if t <= OPEN || t <= CLOSE {
      BeginsTag(t);
    } else {
      CutNoneAfterTrim(t);
    }
  }

  /** A tag that begins t + more begins t, or is itself begun by t. */
  lemma TagBeginsOrIsBegun(t: string, more: string, tag: string)
    requires tag <= t + more
    ensures t <= tag || tag <= t
  {
    assert forall k :: 0 <= k < |t| && k < |tag| ==> tag[k] == (t + more)[k] == t[k];
  }

  lemma UntaggedStays(t: string, more: string)
    requires !(t <= OPEN) && !(t <= CLOSE) && !Tagged(t)
    ensures !Tagged(TrimRight(t + more)) && t + more != CLOSE
  {
    TrimRightIsPrefix(t + more);
    if OPEN <= t + more {
      TagBeginsOrIsBegun(t, more, OPEN);
    }
    if CLOSE <= t + more {
      TagBeginsOrIsBegun(t, more, CLOSE);
    }
  }

  /** A reply that opens with no tag is passed on whole. */
  lemma PlainReply(held: string, more: string)
    requires var t := TrimLeft(held); t != "" && !(t <= OPEN) && !(t <= CLOSE) && !Tagged(t)
    ensures Agrees(held + more, Split("", held + more))
  {
    TrimLeftConcat(held, more);
    UntaggedStays(TrimLeft(held), more);
  }

  /** The first closing tag does not move when what follows it changes. */
  lemma CutElsewhere(before: string, after: string, other: string)
    requires Cut(before + CLOSE + after) == Some(Halves(before, after))
    ensures Cut(before + CLOSE + other) == Some(Halves(before, other))
  {
    var s, r := before + CLOSE + after, before + CLOSE + other;
    var n := |before|;
    assert r[n..n + |CLOSE|] == CLOSE;
    assert ClosesAt(r, n);
    forall j | 0 <= j < n ensures !ClosesAt(r, j) {
      assert r[j..j + |CLOSE|] == s[j..j + |CLOSE|];
      assert !ClosesAt(s, j);
    }
    var h := Cut(r).value;
    assert ClosesAt(r, |h.before|) by {
      assert r[|h.before|..|h.before| + |CLOSE|] == CLOSE;
    }
    assert |h.before| == n;
    assert h.before == r[..n] == before;
    assert h.after == r[n + |CLOSE|..] == other;
  }

  /** The whole of a reply whose closing tag is in, whatever follows. */
  lemma SplitClosed(t: string, h: Halves, more: string)
    requires Tagged(t) && Cut(t) == Some(h)
    ensures var y := TrimRight(h.after + more);
            && TrimRight(t + more) == h.before + CLOSE + y
            && Tagged(h.before + CLOSE + y) && Cut(h.before + CLOSE + y) == Some(Halves(h.before, y))
  {
    var x, y := h.before + CLOSE, h.after + more;
    assert t + more == x + y;
    assert x[|x| - 1] == '>';
    TrimRightAfter(x, y);
    CutElsewhere(h.before, h.after, TrimRight(y));
    TaggedStays(t, h, TrimRight(y));
  }

  /** Once the closing tag is in, the rest of the reply decides nothing. */
  lemma ClosedReply(held: string, more: string, h: Halves)
    requires var t := TrimLeft(held); t != "" && Tagged(t) && t != CLOSE && Cut(t) == Some(h)
    ensures Agrees(held + more, Split(Reasoning(h.before), TrimLeft(h.after) + more))
  {
    var t, y := TrimLeft(held), h.after + more;
    TrimLeftConcat(held, more);
    SplitClosed(t, h, more);
    assert SplitThinking(held + more) == Split(Reasoning(h.before), TrimSpace(TrimRight(y)));
    TrimSpaceOfTrimRight(y);
    TrimSpaceOfTrimLeft(h.after, more);
    TrimTwice(y);
    assert |t| > |CLOSE|;
  }

  lemma TaggedStays(t: string, h: Halves, other: string)
    requires Tagged(t) && Cut(t) == Some(h)
    ensures Tagged(h.before + CLOSE + other)
  {
    var n := |h.before|;
    if CLOSE <= t {
      assert ClosesAt(t, 0);
      assert h.before == "";
    } else {
      assert n >= |OPEN| by {
        assert t[n] == '<' && t[n + 1] == '/';
      }
      assert OPEN == t[..|OPEN|] == h.before[..|OPEN|];
    }
  }

  lemma PushAgrees(held: string, c: string, more: string)
    requires Withheld(held)
    ensures var d := PushLead(Lead(held, false), c);
            && (!d.next.decided ==> d == Delta(Lead(held + c, false), "", "") && Withheld(held + c))
            && (d.next.decided ==> Agrees(held + c + more, Split(d.thinking, d.content + more)))
  {
    var next := held + c;
    var t := TrimLeft(next);
    if !Withheld(next) {
      if Tagged(t) {
        ClosedReply(next, more, Cut(t).value);
      } else {
        PlainReply(next, more);
      }
    }
  }

  /** The splitter is right so far, whatever is still to come. */
  predicate OnCourse(p: Progress, reply: string, more: string) {
    && (!p.lead.decided ==> p == Progress(Lead(reply, false), "", "") && Withheld(reply))
    && (p.lead.decided ==> Agrees(reply + more, Split(p.thinking, p.content + more)))
  }

  lemma DecidedStaysOnCourse(p: Progress, reply: string, c: string, more: string)
    requires p.lead.decided && OnCourse(p, reply, c + more)
    ensures OnCourse(Progress(p.lead, p.thinking + "", p.content + c), reply + c, more)
  {
    assert (reply + c) + more == reply + (c + more);
    assert (p.content + c) + more == p.content + (c + more);
    assert p.thinking + "" == p.thinking;
  }

  lemma {:induction false} FeedAgrees(chunks: seq<string>, more: string)
    ensures OnCourse(Feed(chunks), Concat(chunks), more)
  {
    if chunks != [] {
      var last := |chunks| - 1;
      var p, c := Feed(chunks[..last]), chunks[last];
      FeedAgrees(chunks[..last], c + more);
      if p.lead.decided {
        DecidedStaysOnCourse(p, Concat(chunks[..last]), c, more);
      } else {
        PushAgrees(Concat(chunks[..last]), c, more);
        var d := PushLead(p.lead, c);
        assert "" + d.thinking == d.thinking && "" + d.content == d.content;
      }
    }
  }

  /**
   * For every way of cutting a reply into chunks, the deltas carry the reasoning that
   * splitThinking finds in the whole reply, and its content up to surrounding
   * whitespace if and only if the reply is not, after leading whitespace, exactly
   * one closing tag.
   */
  lemma DeltasAddUp(chunks: seq<string>)
    ensures var deltas, whole := Stream(chunks), SplitThinking(Concat(chunks));
            && deltas.thinking == whole.thinking
            && (TrimSpace(deltas.rest) == TrimSpace(whole.rest) <==> TrimLeft(Concat(chunks)) != CLOSE)
  {
    var p, reply := Feed(chunks), Concat(chunks);
    FeedAgrees(chunks, "");
    assert reply + "" == reply && p.content + "" == p.content;
    if !p.lead.decided {
      WithheldToTheEnd(reply);
      assert "" + reply == reply;
    }
  }
}
