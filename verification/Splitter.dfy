/**
 * The splitter that cuts a document into parts to embed. It works on the bytes of a
 * UTF-8 text (RFC 3629, section 4), so a cut could fall inside a rune.
 */
module Splitter {
  import opened Wrappers
  import opened Collections

  newtype Byte = b: int | 0 <= b < 256
  type Text = seq<Byte>

  const SPACE: Byte := 0x20
  const NEWLINE: Byte := 0x0A
  const TAB: Byte := 0x09

  // ---- UTF-8 ----

  /** 10xxxxxx: the only bytes that do not start a rune. */
  predicate Continues(b: Byte) {
    0x80 <= b < 0xC0
  }

  function Width(lead: Byte): (w: nat)
    ensures 1 <= w <= 4
  {
    if lead < 0xC0 then 1 else if lead < 0xE0 then 2 else if lead < 0xF0 then 3 else 4
  }

  /** One character, encoded as it must be: no overlong form, no surrogate, nothing above U+10FFFF. */
  predicate IsRune(r: Text) {
    && |r| > 0 && |r| == Width(r[0]) && !Continues(r[0])
    && (forall i :: 1 <= i < |r| ==> Continues(r[i]))
    && !(r[0] in {0xC0, 0xC1}) && r[0] <= 0xF4
    && (r[0] == 0xE0 ==> r[1] >= 0xA0) && (r[0] == 0xED ==> r[1] < 0xA0)
    && (r[0] == 0xF0 ==> r[1] >= 0x90) && (r[0] == 0xF4 ==> r[1] < 0x90)
  }

  predicate StartsWithRune(s: Text) {
    s != [] && Width(s[0]) <= |s| && IsRune(s[..Width(s[0])])
  }

  function First(s: Text): Text
    requires StartsWithRune(s)
  {
    s[..Width(s[0])]
  }

  function Rest(s: Text): (r: Text)
    requires StartsWithRune(s)
    ensures |r| < |s|
  {
    s[Width(s[0])..]
  }

  predicate Valid(s: Text) {
    s == [] || (StartsWithRune(s) && Valid(Rest(s)))
  }

  /** A position of s that is not inside a rune. */
  predicate Boundary(s: Text, i: nat) {
    i <= |s| && (i < |s| ==> !Continues(s[i]))
  }

  lemma RestOfPrefix(s: Text, i: nat)
    requires StartsWithRune(s) && Width(s[0]) <= i <= |s|
    ensures StartsWithRune(s[..i]) && First(s[..i]) == First(s)
    ensures Rest(s[..i]) == Rest(s)[..i - Width(s[0])] && s[i..] == Rest(s)[i - Width(s[0])..]
  {
    assert s[..i][..Width(s[0])] == First(s);
  }

  /** A valid text may be cut at every position that is not inside a rune. */
  lemma {:induction false} CutAtBoundary(s: Text, i: nat)
    requires Valid(s) && Boundary(s, i)
    ensures Valid(s[..i]) && Valid(s[i..])
  {
    if i == 0 {
      assert s[i..] == s;
    } else {
      var w := Width(s[0]);
      assert i >= w by {
        assert forall j :: 1 <= j < w ==> Continues(First(s)[j]);
      }
      if i < |s| {
        assert s[i] == Rest(s)[i - w];
      }
      CutAtBoundary(Rest(s), i - w);
      RestOfPrefix(s, i);
    }
  }

  // ---- White space ----

  /** unicode.IsSpace, on the encoded rune. */
  predicate IsSpace(r: Text) {
    || (|r| == 1 && (0x09 <= r[0] <= 0x0D || r[0] == SPACE))
    || (|r| == 2 && r[0] == 0xC2 && (r[1] == 0x85 || r[1] == 0xA0))
    || (|r| == 3 && r[0] == 0xE1 && r[1] == 0x9A && r[2] == 0x80)
    || (|r| == 3 && r[0] == 0xE2 && r[1] == 0x80 && (0x80 <= r[2] <= 0x8A || r[2] in {0xA8, 0xA9, 0xAF}))
    || (|r| == 3 && r[0] == 0xE2 && r[1] == 0x81 && r[2] == 0x9F)
    || (|r| == 3 && r[0] == 0xE3 && r[1] == 0x80 && r[2] == 0x80)
  }

  function TrimLeft(s: Text): Text
    requires Valid(s)
  {
    if s != [] && IsSpace(First(s)) then TrimLeft(Rest(s)) else s
  }

  function TrimRight(s: Text): Text
    requires Valid(s)
  {
    if s == [] then []
    else
      var rest := TrimRight(Rest(s));
      if rest == [] && IsSpace(First(s)) then [] else First(s) + rest
  }

  /** s without its white space: what a split must not lose. */
  function NonSpace(s: Text): Text
    requires Valid(s)
  {
    if s == [] then []
    else (if IsSpace(First(s)) then [] else First(s)) + NonSpace(Rest(s))
  }

  lemma RuneThen(r: Text, s: Text)
    requires IsRune(r) && Valid(s)
    ensures Valid(r + s) && First(r + s) == r && Rest(r + s) == s
  {
    assert (r + s)[..|r|] == r && (r + s)[|r|..] == s;
  }

  lemma NonSpaceThen(r: Text, s: Text)
    requires IsRune(r) && Valid(s)
    ensures Valid(r + s) && NonSpace(r + s) == (if IsSpace(r) then [] else r) + NonSpace(s)
  {
    RuneThen(r, s);
  }

  lemma ConcatStep(r: Text, u: Text, s: Text, t: Text)
    requires IsRune(r) && Valid(u) && Valid(t) && s == r + u
    requires Valid(u + t) && NonSpace(u + t) == NonSpace(u) + NonSpace(t)
    ensures Valid(s) && Valid(s + t) && NonSpace(s + t) == NonSpace(s) + NonSpace(t)
  {
    NonSpaceThen(r, u);
    NonSpaceThen(r, u + t);
    Assoc(r, u, t);
    Assoc(if IsSpace(r) then [] else r, NonSpace(u), NonSpace(t));
  }

  lemma {:induction false} NonSpaceOfConcat(s: Text, t: Text)
    requires Valid(s) && Valid(t)
    ensures Valid(s + t) && NonSpace(s + t) == NonSpace(s) + NonSpace(t)
  {
    if s == [] {
      Unit(t);
      Unit(NonSpace(t));
    } else {
      NonSpaceOfConcat(Rest(s), t);
      assert s == First(s) + Rest(s);
      ConcatStep(First(s), Rest(s), s, t);
    }
  }

  lemma NonSpaceAt(s: Text, i: nat)
    requires Valid(s) && Boundary(s, i)
    ensures Valid(s[..i]) && Valid(s[i..]) && NonSpace(s) == NonSpace(s[..i]) + NonSpace(s[i..])
  {
    CutAtBoundary(s, i);
    NonSpaceOfConcat(s[..i], s[i..]);
    Collections.Split(s, i);
  }

  lemma {:induction false} TrimLeftKeeps(s: Text)
    requires Valid(s)
    ensures Valid(TrimLeft(s)) && |TrimLeft(s)| <= |s| && NonSpace(TrimLeft(s)) == NonSpace(s)
    ensures TrimLeft(s) != [] ==> !IsSpace(First(TrimLeft(s)))
  {
    if s != [] && IsSpace(First(s)) {
      TrimLeftKeeps(Rest(s));
    }
  }

  lemma {:induction false} TrimRightKeeps(s: Text)
    requires Valid(s)
    ensures Valid(TrimRight(s)) && |TrimRight(s)| <= |s| && NonSpace(TrimRight(s)) == NonSpace(s)
    ensures TrimRight(s) != [] ==> First(TrimRight(s)) == First(s)
  {
    if s != [] {
      TrimRightKeeps(Rest(s));
      RuneThen(First(s), TrimRight(Rest(s)));
    }
  }

  lemma {:induction false} TrimRightAgain(s: Text)
    requires Valid(s)
    ensures Valid(TrimRight(s)) && TrimRight(TrimRight(s)) == TrimRight(s)
  {
    if s != [] {
      TrimRightAgain(Rest(s));
      RuneThen(First(s), TrimRight(Rest(s)));
    }
  }

  /** No white space at either end. */
  predicate Trimmed(s: Text)
    requires Valid(s)
  {
    TrimLeft(s) == s && TrimRight(s) == s
  }

  /** strings.TrimSpace: a part of s, with the same characters apart from white space. */
  function TrimSpace(s: Text): (t: Text)
    requires Valid(s)
    ensures Valid(t) && |t| <= |s| && NonSpace(t) == NonSpace(s) && Trimmed(t)
  {
    TrimLeftKeeps(s);
    TrimRightKeeps(TrimLeft(s));
    TrimRightAgain(TrimLeft(s));
    TrimRight(TrimLeft(s))
  }

  // ---- Paragraphs ----

  predicate BreaksAt(s: Text, i: nat) {
    i + 1 < |s| && s[i] == NEWLINE && s[i + 1] == NEWLINE
  }

  function FirstBreak(s: Text, i: nat): (k: Option<nat>)
    requires i <= |s|
    ensures k.Some? ==> i <= k.value && BreaksAt(s, k.value) && forall j :: i <= j < k.value ==> !BreaksAt(s, j)
    ensures k.None? ==> forall j :: i <= j ==> !BreaksAt(s, j)
    decreases |s| - i
  {
    if BreaksAt(s, i) then Some(i) else if i == |s| then None else FirstBreak(s, i + 1)
  }

  /** strings.Split(text, "\n\n"). */
  function Paragraphs(text: Text): (paras: seq<Text>)
    ensures |paras| > 0
    decreases |text|
  {
    match FirstBreak(text, 0)
    case None => [text]
    case Some(i) => [text[..i]] + Paragraphs(text[i + 2..])
  }

  predicate AllValid(parts: seq<Text>) {
    forall k :: 0 <= k < |parts| ==> Valid(parts[k])
  }

  function Concat(parts: seq<Text>): Text {
    if parts == [] then [] else Concat(parts[..|parts| - 1]) + parts[|parts| - 1]
  }

  /** What the paragraphs from k on hold besides white space. */
  function NonSpaceFrom(paras: seq<Text>, k: nat): Text
    requires AllValid(paras) && k <= |paras|
    decreases |paras| - k
  {
    if k == |paras| then [] else NonSpace(paras[k]) + NonSpaceFrom(paras, k + 1)
  }

  /** The bytes of the paragraphs from k on, each with the break after it. */
  function LengthFrom(paras: seq<Text>, k: nat): nat
    requires k <= |paras|
    decreases |paras| - k
  {
    if k == |paras| then 0 else |paras[k]| + 2 + LengthFrom(paras, k + 1)
  }

  lemma {:induction false} FromTail(paras: seq<Text>, k: nat)
    requires AllValid(paras) && 1 <= k <= |paras|
    ensures AllValid(paras[1..]) && NonSpaceFrom(paras[1..], k - 1) == NonSpaceFrom(paras, k)
    ensures LengthFrom(paras[1..], k - 1) == LengthFrom(paras, k)
    decreases |paras| - k
  {
    if k < |paras| {
      FromTail(paras, k + 1);
    }
  }

  lemma BreakIsSpace()
    ensures Valid([NEWLINE, NEWLINE]) && NonSpace([NEWLINE, NEWLINE]) == []
  {
    NonSpaceThen([NEWLINE], []);
    NonSpaceThen([NEWLINE], [NEWLINE]);
    assert [NEWLINE] + [] == [NEWLINE];
    assert [NEWLINE] + [NEWLINE] == [NEWLINE, NEWLINE];
  }

  lemma SkipNewline(s: Text)
    requires Valid(s) && s != [] && s[0] == NEWLINE
    ensures Valid(s[1..]) && NonSpace(s[1..]) == NonSpace(s)
  {
    Unit(NonSpace(s[1..]));
  }

  lemma SkipBreak(s: Text)
    requires Valid(s) && BreaksAt(s, 0)
    ensures Valid(s[2..]) && NonSpace(s[2..]) == NonSpace(s)
  {
    SkipNewline(s);
    SkipNewline(s[1..]);
    assert s[1..][1..] == s[2..];
  }

  lemma CutAtBreak(text: Text, i: nat)
    requires Valid(text) && BreaksAt(text, i)
    ensures Valid(text[..i]) && Valid(text[i + 2..]) && NonSpace(text) == NonSpace(text[..i]) + NonSpace(text[i + 2..])
  {
    NonSpaceAt(text, i);
    SkipBreak(text[i..]);
    assert text[i..][2..] == text[i + 2..];
  }

  /** What a paragraph followed by others adds up to. */
  lemma KeptOfCons(para: Text, rest: seq<Text>)
    requires Valid(para) && AllValid(rest)
    ensures AllValid([para] + rest)
    ensures NonSpaceFrom([para] + rest, 0) == NonSpace(para) + NonSpaceFrom(rest, 0)
    ensures LengthFrom([para] + rest, 0) == |para| + 2 + LengthFrom(rest, 0)
  {
    FromTail([para] + rest, 1);
    assert ([para] + rest)[1..] == rest;
  }

  /** Cutting a text into paragraphs loses nothing but the breaks between them. */
  lemma {:induction false} ParagraphsKeep(text: Text)
    requires Valid(text)
    ensures AllValid(Paragraphs(text))
    ensures NonSpaceFrom(Paragraphs(text), 0) == NonSpace(text)
    ensures LengthFrom(Paragraphs(text), 0) == |text| + 2
    decreases |text|
  {
    match FirstBreak(text, 0)
    case None =>
      KeptOfCons(text, []);
      Unit(NonSpace(text));
      assert [text] + [] == [text];
    case Some(i) =>
      CutAtBreak(text, i);
      ParagraphsKeep(text[i + 2..]);
      KeptOfCons(text[..i], Paragraphs(text[i + 2..]));
  }

  // ---- Cutting a paragraph ----

  predicate Blank(b: Byte) {
    b == SPACE || b == NEWLINE || b == TAB
  }

  /** Where a paragraph of more than max bytes is to be cut. */
  ghost predicate GoodCut(para: Text, max: nat, cut: nat) {
    && 0 < cut <= |para| && Boundary(para, cut)
    && if exists i :: 0 < i < max && i < |para| && Blank(para[i]) then
         cut < max && cut < |para| && Blank(para[cut]) && forall i :: cut < i < max && i < |para| ==> !Blank(para[i])
       else if exists i :: 0 < i <= max && Boundary(para, i) then
         cut <= max && forall i :: cut < i <= max ==> !Boundary(para, i)
       else
         cut == Width(para[0])
  }

  /** The last blank of the first max bytes; else the last start of a rune there; else the end of the first rune. */
  method FindCut(para: Text, max: nat) returns (cut: nat)
    requires Valid(para) && |para| > max
    ensures GoodCut(para, max, cut)
  {
    cut := max;
    var i := max - 1;
    while i >= 0 && !Blank(para[i])
      invariant -1 <= i < max
      invariant forall j :: i < j < max ==> !Blank(para[j])
    {
      i := i - 1;
    }
    if i > 0 {
      return i;
    }
    while cut > 0 && Continues(para[cut])
      invariant 0 <= cut <= max
      invariant forall j :: cut < j <= max ==> !Boundary(para, j)
    {
      cut := cut - 1;
    }
    assert cut > 0 ==> Boundary(para, cut);
    if cut == 0 {
      cut := Width(para[0]);
      WholeFirstRune(para);
    }
  }

  lemma WholeFirstRune(s: Text)
    requires Valid(s) && s != []
    ensures Boundary(s, Width(s[0]))
  {
    if Width(s[0]) < |s| {
      assert s[Width(s[0])] == Rest(s)[0] == First(Rest(s))[0];
    }
  }

  /** A part is short enough, or one rune that alone is too long. */
  predicate Fits(p: Text, max: nat) {
    |p| <= max || IsRune(p)
  }

  predicate GoodParts(parts: seq<Text>, max: nat) {
    forall k :: 0 <= k < |parts| ==> parts[k] != [] && Valid(parts[k]) && Trimmed(parts[k]) && Fits(parts[k], max)
  }

  lemma RuneTrims(r: Text)
    requires IsRune(r) && !IsSpace(r)
    ensures Valid(r) && TrimSpace(r) == r
  {
    RuneThen(r, []);
    assert r + [] == r;
  }

  /** Cutting a trimmed paragraph leaves two parts, the first of which fits and is not blank. */
  lemma CutKeeps(para: Text, max: nat, cut: nat)
    requires Valid(para) && Trimmed(para) && para != [] && GoodCut(para, max, cut)
    ensures Valid(para[..cut]) && Valid(para[cut..])
    ensures NonSpace(para) == NonSpace(para[..cut]) + NonSpace(para[cut..])
    ensures TrimSpace(para[..cut]) != [] && Fits(TrimSpace(para[..cut]), max)
  {
    NonSpaceAt(para, cut);
    TrimLeftKeeps(para);
    assert !IsSpace(First(para));
    assert cut >= Width(para[0]) by {
      assert forall j :: 1 <= j < Width(para[0]) ==> Continues(First(para)[j]);
    }
    RestOfPrefix(para, cut);
    assert NonSpace(para[..cut]) != [];
    if cut > max {
      RuneTrims(First(para));
    }
  }

  // ---- The splitter ----

  function NonSpaceOf(parts: seq<Text>): Text
    requires AllValid(parts)
  {
    if parts == [] then [] else NonSpaceOf(parts[..|parts| - 1]) + NonSpace(parts[|parts| - 1])
  }

  lemma {:induction false} NonSpaceOfParts(parts: seq<Text>)
    requires AllValid(parts)
    ensures Valid(Concat(parts)) && NonSpace(Concat(parts)) == NonSpaceOf(parts)
  {
    if parts != [] {
      NonSpaceOfParts(parts[..|parts| - 1]);
      NonSpaceOfConcat(Concat(parts[..|parts| - 1]), parts[|parts| - 1]);
    }
  }

  lemma NonSpaceOfPush(parts: seq<Text>, p: Text)
    requires AllValid(parts) && Valid(p)
    ensures AllValid(parts + [p]) && NonSpaceOf(parts + [p]) == NonSpaceOf(parts) + NonSpace(p)
  {
    assert (parts + [p])[..|parts|] == parts;
  }

  /** The parts and the text gathered so far hold these characters. */
  predicate Keeps(parts: seq<Text>, cur: Text, seen: Text) {
    AllValid(parts) && Valid(cur) && NonSpaceOf(parts) + NonSpace(cur) == seen
  }

  lemma AllKept(parts: seq<Text>, seen: Text)
    requires Keeps(parts, [], seen)
    ensures Valid(Concat(parts)) && NonSpace(Concat(parts)) == seen
  {
    Unit(NonSpaceOf(parts));
    NonSpaceOfParts(parts);
  }

  lemma KeepsPush(parts: seq<Text>, cur: Text, seen: Text)
    requires Keeps(parts, cur, seen)
    ensures Keeps(parts + [TrimSpace(cur)], [], seen)
    ensures TrimSpace(cur) == [] ==> Keeps(parts, [], seen)
  {
    NonSpaceOfPush(parts, TrimSpace(cur));
    Unit(seen);
  }

  function Whole(cur: Text): seq<Text>
    requires Valid(cur)
  {
    if TrimSpace(cur) == [] then [] else [TrimSpace(cur)]
  }

  /** The closure flush: the text gathered so far becomes a part, unless it is blank. */
  method Flush(parts: seq<Text>, cur: Text, max: nat, ghost seen: Text) returns (out: seq<Text>)
    requires GoodParts(parts, max) && |cur| <= max && Keeps(parts, cur, seen)
    ensures GoodParts(out, max) && Keeps(out, [], seen)
    ensures out == parts + Whole(cur)
  {
    out := parts;
    KeepsPush(parts, cur, seen);
    var s := TrimSpace(cur);
    if s != [] {
      out := out + [s];
    }
  }

  lemma KeepsCut(parts: seq<Text>, seen: Text, left: Text, cut: nat)
    requires Keeps(parts, [], seen)
    requires Valid(left) && cut <= |left| && Valid(left[..cut]) && Valid(left[cut..])
    requires NonSpace(left) == NonSpace(left[..cut]) + NonSpace(left[cut..])
    ensures Keeps(parts + [TrimSpace(left[..cut])], [], seen + NonSpace(left[..cut]))
    ensures (seen + NonSpace(left[..cut])) + NonSpace(left[cut..]) == seen + NonSpace(left)
  {
    NonSpaceOfPush(parts, TrimSpace(left[..cut]));
    Unit(seen);
    Unit(NonSpaceOf(parts));
    Unit(seen + NonSpace(left[..cut]));
    Assoc(seen, NonSpace(left[..cut]), NonSpace(left[cut..]));
  }

  /** The inner loop: cuts a paragraph until what is left of it fits. */
  method CutLong(parts: seq<Text>, cur: Text, para: Text, max: nat, ghost seen: Text)
    returns (out: seq<Text>, cur': Text, left: Text, ghost seen': Text)
    requires GoodParts(parts, max) && |cur| <= max && Keeps(parts, cur, seen) && Valid(para) && Trimmed(para)
    ensures GoodParts(out, max) && |cur'| <= max && Keeps(out, cur', seen') && Valid(left) && |left| <= max
    ensures seen' + NonSpace(left) == seen + NonSpace(para)
    ensures |para| <= max ==> out == parts && cur' == cur && left == para
  {
    out, cur', left, seen' := parts, cur, para, seen;
    while |left| > max
      invariant GoodParts(out, max) && |cur'| <= max && Keeps(out, cur', seen') && Valid(left) && Trimmed(left)
      invariant seen' + NonSpace(left) == seen + NonSpace(para)
      invariant |para| <= max ==> out == parts && cur' == cur && left == para
      decreases |left|
    {
      out := Flush(out, cur', max, seen');
      var rest;
      out, rest, seen' := CutOff(out, left, max, seen');
      cur', left := [], rest;
    }
  }

  /** The inner loop's body after the flush. */
  method CutOff(parts: seq<Text>, left: Text, max: nat, ghost seen: Text) returns (out: seq<Text>, rest: Text, ghost seen': Text)
    requires GoodParts(parts, max) && Keeps(parts, [], seen) && Valid(left) && Trimmed(left) && |left| > max
    ensures GoodParts(out, max) && Keeps(out, [], seen') && Valid(rest) && Trimmed(rest) && |rest| < |left|
    ensures seen' + NonSpace(rest) == seen + NonSpace(left)
  {
    var cut := FindCut(left, max);
    CutKeeps(left, max, cut);
    KeepsCut(parts, seen, left, cut);
    out := parts + [TrimSpace(left[..cut])];
    rest := TrimSpace(left[cut..]);
    seen' := seen + NonSpace(left[..cut]);
  }

  function Joined(cur: Text, para: Text): Text {
    if cur == [] then para else cur + [NEWLINE, NEWLINE] + para
  }

  function Join(cur: Text, para: Text): Text {
    if para == [] then cur else Joined(cur, para)
  }

  /** The first k paragraphs, trimmed, with a break between those that are not blank. */
  function JoinTo(paras: seq<Text>, k: nat): Text
    requires AllValid(paras) && k <= |paras|
  {
    if k == 0 then [] else Join(JoinTo(paras, k - 1), TrimSpace(paras[k - 1]))
  }

  lemma KeepsJoin(parts: seq<Text>, cur: Text, seen: Text, para: Text)
    requires Keeps(parts, cur, seen) && Valid(para)
    ensures Keeps(parts, Joined(cur, para), seen + NonSpace(para))
  {
    Assoc(NonSpaceOf(parts), NonSpace(cur), NonSpace(para));
    Unit(NonSpace(para));
    if cur != [] {
      BreakIsSpace();
      NonSpaceOfConcat(cur, [NEWLINE, NEWLINE]);
      Unit(NonSpace(cur));
      NonSpaceOfConcat(cur + [NEWLINE, NEWLINE], para);
    }
  }

  /** The end of the outer loop's body: the paragraph joins the text gathered so far, or starts the next part. */
  method Gather(parts: seq<Text>, cur: Text, para: Text, max: nat, ghost seen: Text) returns (out: seq<Text>, cur': Text)
    requires GoodParts(parts, max) && |cur| <= max && Keeps(parts, cur, seen) && Valid(para) && |para| <= max
    ensures GoodParts(out, max) && |cur'| <= max && Keeps(out, cur', seen + NonSpace(para))
    ensures cur == [] || |cur| + 2 + |para| <= max ==> out == parts && cur' == Join(cur, para)
  {
    out, cur' := parts, cur;
    if para == [] {
      Unit(seen);
      return;
    }
    if |cur'| > 0 && |cur'| + 2 + |para| > max {
      out := Flush(out, cur', max, seen);
      cur' := [];
    }
    KeepsJoin(out, cur', seen, para);
    ghost var joined := Joined(cur', para);
    if |cur'| > 0 {
      cur' := cur' + [NEWLINE, NEWLINE];
    }
    cur' := cur' + para;
    assert cur' == joined;
  }

  /** The outer loop's body. */
  method AddParagraph(parts: seq<Text>, cur: Text, para: Text, max: nat, ghost seen: Text) returns (out: seq<Text>, cur': Text)
    requires GoodParts(parts, max) && |cur| <= max && Keeps(parts, cur, seen) && Valid(para)
    ensures GoodParts(out, max) && |cur'| <= max && Keeps(out, cur', seen + NonSpace(para))
    ensures |para| <= max && (cur == [] || |cur| + 2 + |para| <= max) ==> out == parts && cur' == Join(cur, TrimSpace(para))
  {
    var left;
    ghost var seen';
    out, cur', left, seen' := CutLong(parts, cur, TrimSpace(para), max, seen);
    out, cur' := Gather(out, cur', left, max, seen');
  }

  /** The outer loop. Paragraphs that fit together are all still gathered when it ends. */
  method AddParagraphs(paras: seq<Text>, max: nat) returns (parts: seq<Text>, cur: Text)
    requires AllValid(paras)
    ensures GoodParts(parts, max) && |cur| <= max && Keeps(parts, cur, NonSpaceFrom(paras, 0))
    ensures LengthFrom(paras, 0) <= max + 2 ==> parts == [] && cur == JoinTo(paras, |paras|)
  {
    parts, cur := [], [];
    ghost var seen: Text := [];
    ghost var total := LengthFrom(paras, 0);
    Unit(NonSpaceFrom(paras, 0));
    for k := 0 to |paras|
      invariant GoodParts(parts, max) && |cur| <= max && Keeps(parts, cur, seen)
      invariant seen + NonSpaceFrom(paras, k) == NonSpaceFrom(paras, 0)
      invariant total <= max + 2 ==> parts == [] && cur == JoinTo(paras, k)
      invariant total <= max + 2 ==> LengthFrom(paras, k) + (if cur == [] then 0 else |cur| + 2) <= total
    {
      Assoc(seen, NonSpace(paras[k]), NonSpaceFrom(paras, k + 1));
      parts, cur := AddParagraph(parts, cur, paras[k], max, seen);
      seen := seen + NonSpace(paras[k]);
    }
    Unit(seen);
  }

  /**
   * split: trimmed, non-empty parts that are never cut inside a rune, of at most max bytes
   * unless one rune is longer, which together hold every character of the text that is not
   * white space, in order. A text that fits becomes one part, the paragraphs it holds.
   */
  method Split(text: Text, max: nat) returns (parts: seq<Text>)
    requires Valid(text)
    ensures GoodParts(parts, max)
    ensures Valid(Concat(parts)) && NonSpace(Concat(parts)) == NonSpace(text)
    ensures AllValid(Paragraphs(text))
    ensures |text| <= max ==> var whole := JoinTo(Paragraphs(text), |Paragraphs(text)|); Valid(whole) && parts == Whole(whole)
  {
    ParagraphsKeep(text);
    var gathered, cur := AddParagraphs(Paragraphs(text), max);
    parts := Flush(gathered, cur, max, NonSpace(text));
    AllKept(parts, NonSpace(text));
  }
}
