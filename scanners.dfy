/** The regular expressions of the core, each written out as the scan Python's
    `re.findall` / `re.search` performs: leftmost match first, greedy and lazy
    quantifiers resolved, the scan resuming where the previous match ended. */
module Scanners {
  import opened JsonValues
  import opened Text

  // ---------------------------------------------------------------------------
  // Fenced code blocks: ```(?:\w+)?\s*(.*?)\s*```  and  ```(?:json)?\s*(.*?)\s*```
  // (both with re.DOTALL)

  /** What may follow the opening fence before the block's content. */
  datatype FenceTag =
    | AnyWord   // (?:\w+)?  -- any language tag
    | JsonWord  // (?:json)? -- only the word "json"

  const Fence: string := "```"

  function AfterTag(s: string, i: nat, tag: FenceTag): (r: nat)
    requires i <= |s|
    ensures i <= r <= |s|
  {
    match tag
    case AnyWord => RunEnd(s, i, IsWordChar)
    case JsonWord => if HasAt(s, "json", i) then i + 4 else i
  }

  /** The captured group of every fenced block, in order. The group starts
      after the tag and the whitespace that follow the opening fence, and stops
      before the whitespace that precedes the first closing fence. */
  function FencedBlocksFrom(s: string, i: nat, tag: FenceTag): seq<string>
    requires i <= |s|
    decreases |s| - i
  {
    if i + 3 > |s| then []
    else match BlockAt(s, i, tag)
      case Some((blk, e)) => [blk] + FencedBlocksFrom(s, e, tag)
      case None => FencedBlocksFrom(s, i + 1, tag)
  }

  /** The block whose opening fence is at `i`, with the position after its
      closing fence; `None` when no fence opens at `i` or none closes it. */
  function BlockAt(s: string, i: nat, tag: FenceTag): (r: Option<(string, nat)>)
    requires i <= |s|
    ensures r.Some? ==> i < r.value.1 <= |s|
  {
    if !HasAt(s, Fence, i) then None
    else BlockFrom(s, SkipSpace(s, AfterTag(s, i + 3, tag)))
  }

  /** The group starting at `b` up to the first closing fence. */
  function BlockFrom(s: string, b: nat): (r: Option<(string, nat)>)
    requires b <= |s|
    ensures r.Some? ==> b < r.value.1 <= |s|
  {
    match FindFrom(s, Fence, b)
    case Some(f) => Some((s[b..SpaceRunStart(s, b, f)], f + 3))
    case None => None
  }

  function FencedBlocks(s: string, tag: FenceTag): seq<string> {
    FencedBlocksFrom(s, 0, tag)
  }

  /** A captured block never contains a fence: the group always stops at the
      first closing fence. */
  lemma BlockAtHasNoFence(s: string, i: nat, tag: FenceTag)
    requires i <= |s| && BlockAt(s, i, tag).Some?
    ensures !Contains(BlockAt(s, i, tag).value.0, Fence)
  {
    var b := SkipSpace(s, AfterTag(s, i + 3, tag));
    var f := FindFrom(s, Fence, b).value;
    NoneInSlice(s, Fence, b, SpaceRunStart(s, b, f), f);
  }

  lemma {:induction false} FencedBlocksHaveNoFence(s: string, i: nat, tag: FenceTag)
    requires i <= |s|
    ensures forall k :: 0 <= k < |FencedBlocksFrom(s, i, tag)| ==> !Contains(FencedBlocksFrom(s, i, tag)[k], Fence)
    decreases |s| - i
  {
    var blocks := FencedBlocksFrom(s, i, tag);
    if i + 3 <= |s| {
      match BlockAt(s, i, tag)
      case Some((blk, e)) =>
        var rest := FencedBlocksFrom(s, e, tag);
        assert blocks == [blk] + rest;
        BlockAtHasNoFence(s, i, tag);
        FencedBlocksHaveNoFence(s, e, tag);
        forall k | 0 <= k < |blocks| ensures !Contains(blocks[k], Fence) {
          if k > 0 {
            assert blocks[k] == rest[k - 1];
          }
        }
      case None =>
        FencedBlocksHaveNoFence(s, i + 1, tag);
    }
  }

  /** Text without a backtick contributes no block and does not change where
      the scan resumes. */
  lemma {:induction false} FencedSkip(s: string, i: nat, k: nat, tag: FenceTag)
    requires i <= k <= |s|
    requires forall j :: i <= j < k ==> s[j] != '`'
    ensures FencedBlocksFrom(s, i, tag) == FencedBlocksFrom(s, k, tag)
    decreases k - i
  {
    if i < k {
      if i + 3 <= |s| {
        assert s[i..i + 3][0] == s[i];
        assert !HasAt(s, Fence, i);
      } else {
        FencedTail(s, i, tag);
        FencedTail(s, k, tag);
      }
      FencedSkip(s, i + 1, k, tag);
    }
  }

  lemma FencedTail(s: string, i: nat, tag: FenceTag)
    requires i <= |s| < i + 3
    ensures FencedBlocksFrom(s, i, tag) == []
  {
  }

  /** A text whose only backticks are the two fences of one block written
      as  ```json<newline>body<newline>```  yields exactly `body`, under
      either fence pattern. */
  lemma FencedRoundTrip(s: string, i: nat, body: string, tag: FenceTag)
    requires JsonBlockAt(s, i, body)
    requires '`' !in s[..i] && '`' !in s[i + 12 + |body|..]
    ensures FencedBlocks(s, tag) == [body]
  {
    FencedOpen(s, i, body, tag);
    FencedOnly(s, i, body, i + 12 + |body|, tag);
  }

  /** A closed block with no backtick before or after it is all the scan
      finds. */
  lemma FencedOnly(s: string, i: nat, body: string, e: nat, tag: FenceTag)
    requires i + 3 <= |s| && BlockAt(s, i, tag) == Some((body, e))
    requires '`' !in s[..i] && '`' !in s[e..]
    ensures FencedBlocks(s, tag) == [body]
  {
    FencedPrefix(s, i, tag);
    FencedFrom(s, i, body, e, tag);
  }

  /** From a block that is followed by no backtick, the scan finds that
      block alone. */
  lemma FencedFrom(s: string, i: nat, body: string, e: nat, tag: FenceTag)
    requires i + 3 <= |s| && BlockAt(s, i, tag) == Some((body, e))
    requires '`' !in s[e..]
    ensures BlocksAfter(s, i, tag) == [body]
  {
    FencedStep(s, i, tag);
    FencedSuffix(s, e, tag);
    assert [body] + [] == [body];
  }

  /** `s` holds, at `i`, a block written as  ```json<newline>body<newline>```
      whose body has no backtick and no surrounding whitespace. */
  predicate JsonBlockAt(s: string, i: nat, body: string) {
    && i + 12 + |body| <= |s|
    && s[i..i + 3] == Fence && s[i + 3..i + 7] == "json" && s[i + 7] == '\n'
    && s[i + 8..i + 8 + |body|] == body
    && s[i + 8 + |body|] == '\n' && s[i + 9 + |body|..i + 12 + |body|] == Fence
    && '`' !in body && body != [] && !IsSpace(body[0]) && !IsSpace(body[|body| - 1])
  }

  /** The blocks the scan finds from `i` on. */
  function BlocksAfter(s: string, i: nat, tag: FenceTag): seq<string>
    requires i <= |s|
  {
    FencedBlocksFrom(s, i, tag)
  }

  /** Text before the block without a backtick adds nothing to the scan. */
  lemma FencedPrefix(s: string, i: nat, tag: FenceTag)
    requires i <= |s| && '`' !in s[..i]
    ensures BlocksAfter(s, 0, tag) == BlocksAfter(s, i, tag)
  {
    forall j | 0 <= j < i ensures s[j] != '`' {
      assert s[..i][j] == s[j];
    }
    FencedSkip(s, 0, i, tag);
  }

  /** Text after the block without a backtick adds nothing to the scan. */
  lemma FencedSuffix(s: string, e: nat, tag: FenceTag)
    requires e <= |s| && '`' !in s[e..]
    ensures BlocksAfter(s, e, tag) == []
  {
    forall j | e <= j < |s| ensures s[j] != '`' {
      assert s[e..][j - e] == s[j];
    }
    FencedSkip(s, e, |s|, tag);
    FencedTail(s, |s|, tag);
  }

  /** The block opening at `i` is captured and the scan resumes after its
      closing fence. */
  lemma FencedOpen(s: string, i: nat, body: string, tag: FenceTag)
    requires JsonBlockAt(s, i, body)
    ensures BlockAt(s, i, tag) == Some((body, i + 12 + |body|))
  {
    FencedContentStart(s, i, body[0], tag);
    assert HasAt(s, Fence, i);
    BlockAtClosed(s, i, tag, body);
  }

  lemma BlockAtClosed(s: string, i: nat, tag: FenceTag, body: string)
    requires i + 12 + |body| <= |s| && HasAt(s, Fence, i)
    requires SkipSpace(s, AfterTag(s, i + 3, tag)) == i + 8
    requires s[i + 8..i + 8 + |body|] == body
    requires s[i + 8 + |body|] == '\n' && s[i + 9 + |body|..i + 12 + |body|] == Fence
    requires '`' !in body && body != [] && !IsSpace(body[|body| - 1])
    ensures BlockAt(s, i, tag) == Some((body, i + 12 + |body|))
  {
    BlockAtFrom(s, i, tag);
    BlockFromBody(s, i + 8, body);
  }

  lemma BlockAtFrom(s: string, i: nat, tag: FenceTag)
    requires i + 3 <= |s| && HasAt(s, Fence, i)
    ensures BlockAt(s, i, tag) == BlockFrom(s, SkipSpace(s, AfterTag(s, i + 3, tag)))
  {
  }

  /** A body followed by a newline and a fence is the group, and the scan
      goes on after that fence. */
  lemma BlockFromBody(s: string, b: nat, body: string)
    requires b + 4 + |body| <= |s|
    requires s[b..b + |body|] == body
    requires s[b + |body|] == '\n' && s[b + 1 + |body|..b + 4 + |body|] == Fence
    requires '`' !in body && body != [] && !IsSpace(body[|body| - 1])
    ensures BlockFrom(s, b) == Some((body, b + 4 + |body|))
  {
    FencedCloseFound(s, b, body);
    FencedBodyEnd(s, b, body);
    BlockFromClosed(s, b, b + 1 + |body|, body);
  }

  lemma BlockFromClosed(s: string, b: nat, f: nat, body: string)
    requires b <= |s| && FindFrom(s, Fence, b) == Some(f)
    requires SpaceRunStart(s, b, f) == b + |body| && s[b..b + |body|] == body
    ensures BlockFrom(s, b) == Some((body, f + 3))
  {
  }

  /** One step of the scan at a closed block. */
  lemma FencedStep(s: string, i: nat, tag: FenceTag)
    requires i + 3 <= |s| && BlockAt(s, i, tag).Some?
    ensures FencedBlocksFrom(s, i, tag)
            == [BlockAt(s, i, tag).value.0] + FencedBlocksFrom(s, BlockAt(s, i, tag).value.1, tag)
  {
  }

  lemma FencedContentStart(s: string, i: nat, c: char, tag: FenceTag)
    requires i + 9 <= |s|
    requires s[i + 3..i + 7] == "json" && s[i + 7] == '\n' && s[i + 8] == c && !IsSpace(c)
    ensures SkipSpace(s, AfterTag(s, i + 3, tag)) == i + 8
  {
    assert HasAt(s, "json", i + 3);
    assert AfterTag(s, i + 3, tag) == i + 7 by {
      if tag == AnyWord {
        var r := RunEnd(s, i + 3, IsWordChar);
        forall k | i + 3 <= k < i + 7 ensures IsWordChar(s[k]) {
          assert s[k] == s[i + 3..i + 7][k - i - 3];
        }
        assert !IsWordChar(s[i + 7]);
        assert r == i + 7;
      }
    }
  }

  /** The closing fence right after the body's newline is the first one. */
  lemma FencedCloseFound(s: string, b: nat, body: string)
    requires b + 4 + |body| <= |s|
    requires s[b..b + |body|] == body
    requires s[b + |body|] == '\n' && s[b + 1 + |body|..b + 4 + |body|] == Fence
    requires '`' !in body
    ensures FindFrom(s, Fence, b) == Some(b + 1 + |body|)
  {
    NoTickBefore(s, b, body);
    assert HasAt(s, Fence, b + 1 + |body|);
    FindFirstAt(s, Fence, b, b + 1 + |body|);
  }

  /** The group ends before the newline: only that newline is trailing
      whitespace. */
  lemma FencedBodyEnd(s: string, b: nat, body: string)
    requires b + 1 + |body| <= |s|
    requires s[b..b + |body|] == body && s[b + |body|] == '\n'
    requires body != [] && !IsSpace(body[|body| - 1])
    ensures SpaceRunStart(s, b, b + 1 + |body|) == b + |body|
  {
    LastOfSlice(s, b, body);
  }

  lemma NoTickBefore(s: string, b: nat, body: string)
    requires b + 1 + |body| <= |s| && s[b..b + |body|] == body
    requires s[b + |body|] == '\n' && '`' !in body
    ensures forall j :: b <= j < b + 1 + |body| ==> s[j] != '`'
  {
    forall j | b <= j < b + |body| ensures s[j] != '`' {
      assert s[j] == s[b..b + |body|][j - b];
    }
  }

  lemma LastOfSlice(s: string, b: nat, body: string)
    requires b + |body| <= |s| && s[b..b + |body|] == body && body != []
    ensures s[b + |body| - 1] == body[|body| - 1]
  {
    assert s[b + |body| - 1] == s[b..b + |body|][|body| - 1];
  }

  // ---------------------------------------------------------------------------
  // <answer>(.*?)</answer>  (re.DOTALL)

  const AnswerOpen: string := "<answer>"
  const AnswerClose: string := "</answer>"

  /** The body of every `<answer>` element, in order; each body stops at the
      first closing tag after its opening tag. */
  function AnswerBodiesFrom(s: string, i: nat): seq<string>
    requires i <= |s|
    decreases |s| - i
  {
    if i + 8 > |s| then []
    else if HasAt(s, AnswerOpen, i) then
      match FindFrom(s, AnswerClose, i + 8)
      case Some(c) => [s[i + 8..c]] + AnswerBodiesFrom(s, c + 9)
      case None => AnswerBodiesFrom(s, i + 1)
    else AnswerBodiesFrom(s, i + 1)
  }

  function AnswerBodies(s: string): seq<string> {
    AnswerBodiesFrom(s, 0)
  }

  /** No captured body contains a closing tag (the match is lazy). */
  lemma {:induction false} AnswerBodiesHaveNoClose(s: string, i: nat)
    requires i <= |s|
    ensures forall body :: body in AnswerBodiesFrom(s, i) ==> !Contains(body, AnswerClose)
    decreases |s| - i
  {
    if i + 8 > |s| {
    } else if HasAt(s, AnswerOpen, i) {
      match FindFrom(s, AnswerClose, i + 8)
      case Some(c) =>
        NoneInSlice(s, AnswerClose, i + 8, c, c);
        AnswerBodiesHaveNoClose(s, c + 9);
      case None =>
        AnswerBodiesHaveNoClose(s, i + 1);
    } else {
      AnswerBodiesHaveNoClose(s, i + 1);
    }
  }

  // ---------------------------------------------------------------------------
  // (\d+(?:\.\d+)?)

  /** The decimal tokens of `s`, in order: a digit run, optionally followed by
      a dot and a second digit run. */
  function NumberTokensFrom(s: string, i: nat): seq<string>
    requires i <= |s|
    decreases |s| - i
  {
    if i == |s| then []
    else if IsDigit(s[i]) then
      var e := TokenEnd(s, i);
      [s[i..e]] + NumberTokensFrom(s, e)
    else NumberTokensFrom(s, i + 1)
  }

  /** End of the `\d+(?:\.\d+)?` token starting at a digit. */
  function TokenEnd(s: string, i: nat): (e: nat)
    requires i < |s| && IsDigit(s[i])
    ensures i < e <= |s|
  {
    var m := RunEnd(s, i, IsDigit);
    if m + 1 < |s| && s[m] == '.' && IsDigit(s[m + 1]) then RunEnd(s, m + 1, IsDigit) else m
  }

  function NumberTokens(s: string): seq<string> {
    NumberTokensFrom(s, 0)
  }

  /** Shape of a token: digits, or digits, a dot and digits. */
  predicate IsNumberToken(t: string) {
    && t != []
    && (forall j :: 0 <= j < |t| ==> IsDigit(t[j]) || t[j] == '.')
    && IsDigit(t[0]) && IsDigit(t[|t| - 1])
    && forall j, k :: 0 <= j < k < |t| && t[j] == '.' ==> t[k] != '.'
  }

  lemma {:induction false} NumberTokensWellFormed(s: string, i: nat)
    requires i <= |s|
    ensures forall t :: t in NumberTokensFrom(s, i) ==> IsNumberToken(t)
    decreases |s| - i
  {
    if i == |s| {
    } else if IsDigit(s[i]) {
      var e := TokenEnd(s, i);
      TokenAtWellFormed(s, i);
      NumberTokensWellFormed(s, e);
    } else {
      NumberTokensWellFormed(s, i + 1);
    }
  }

  lemma TokenAtWellFormed(s: string, i: nat)
    requires i < |s| && IsDigit(s[i])
    ensures IsNumberToken(s[i..TokenEnd(s, i)])
  {
    var t := s[i..TokenEnd(s, i)];
    assert forall j :: 0 <= j < |t| ==> t[j] == s[i + j];
  }

  function DigitValue(c: char): nat
    requires IsDigit(c)
  {
    (c as int - '0' as int) as nat
  }

  /** Value of a digit string read as an integer. */
  function DigitsValue(t: string): nat
    requires forall j :: 0 <= j < |t| ==> IsDigit(t[j])
  {
    if t == [] then 0 else DigitsValue(t[..|t| - 1]) * 10 + DigitValue(t[|t| - 1])
  }

  function Pow10(n: nat): (r: nat)
    ensures r > 0
  {
    if n == 0 then 1 else 10 * Pow10(n - 1)
  }

  /** `float(t)` for a token of `NumberTokens`, as an exact decimal. */
  function TokenValue(t: string): real
    requires IsNumberToken(t)
  {
    var m := RunEnd(t, 0, IsDigit);
    if m == |t| then DigitsValue(t) as real
    else
      assert forall j :: m + 1 <= j < |t| ==> IsDigit(t[j]);
      DigitsValue(t[..m]) as real + DigitsValue(t[m + 1..]) as real / Pow10(|t| - m - 1) as real
  }

  // ---------------------------------------------------------------------------
  // bbox2d notation

  /** One `findall` result of a two-group pattern: (name, coordinate text). */
  datatype Capture = Capture(name: string, coords: string)

  predicate NotSpace(c: char) {
    !IsSpace(c)
  }

  /** The label class of the corrected pattern, `[^\s(]`: the `$` of the
      class as written stands in for the parenthesis, as in the rest of the
      pattern. */
  predicate LabelChar(c: char) {
    !IsSpace(c) && c != '('
  }

  /** `bbox2d\s+([^\s$]+?)\s*$(.*?)$` as written (no flags) matches at `i`:
      `bbox2d`, whitespace, a run of non-space characters without `$`, then
      nothing but whitespace to the end of the text. */
  predicate LiteralMatchAt(s: string, i: nat)
    requires i <= |s|
  {
    && HasAt(s, "bbox2d", i) && i + 6 < |s| && IsSpace(s[i + 6])
    && var k := SkipSpace(s, i + 6);
       var m := RunEnd(s, k, NotSpace);
       k < m && '$' !in s[k..m] && AllSpace(s[m..])
  }

  /** `re.findall` of the pattern as written. Its first `$` can only match at
      the end of the text, so its second group always captures `""`, and
      after a match nothing is left to scan. */
  function LiteralCapturesFrom(s: string, i: nat): seq<Capture>
    requires i <= |s|
    decreases |s| - i
  {
    if i + 6 > |s| then []
    else if LiteralMatchAt(s, i) then
      var k := SkipSpace(s, i + 6);
      [Capture(s[k..RunEnd(s, k, NotSpace)], "")]
    else LiteralCapturesFrom(s, i + 1)
  }

  function LiteralCaptures(s: string): seq<Capture> {
    LiteralCapturesFrom(s, 0)
  }

  /** Under the pattern as written every captured coordinate text is empty. */
  lemma {:induction false} LiteralCoordsEmpty(s: string, i: nat)
    requires i <= |s|
    ensures forall c :: c in LiteralCapturesFrom(s, i) ==> c.coords == ""
    decreases |s| - i
  {
    if i + 6 <= |s| && !LiteralMatchAt(s, i) {
      LiteralCoordsEmpty(s, i + 1);
    }
  }

  /** The evidently intended pattern `bbox2d\s+([^\s(]+?)\s*\((.*?)\)`
      matched at `i`: name, coordinate text and the end of the match. */
  function IntendedMatchAt(s: string, i: nat): (r: Option<(Capture, nat)>)
    requires i <= |s|
    ensures r.Some? ==> i < r.value.1 <= |s|
  {
    if !(HasAt(s, "bbox2d", i) && i + 6 < |s| && IsSpace(s[i + 6])) then None
    else
      var k := SkipSpace(s, i + 6);
      var m := RunEnd(s, k, LabelChar);
      var p := SkipSpace(s, m);
      if k < m && p < |s| && s[p] == '(' then
        match FindFrom(s, ")", p + 1)
        case Some(q) =>
          if '\n' !in s[p + 1..q] then Some((Capture(s[k..m], s[p + 1..q]), q + 1)) else None
        case None => None
      else None
  }

  function IntendedCapturesFrom(s: string, i: nat): seq<Capture>
    requires i <= |s|
    decreases |s| - i
  {
    if i + 6 > |s| then []
    else match IntendedMatchAt(s, i)
      case Some((c, e)) => [c] + IntendedCapturesFrom(s, e)
      case None => IntendedCapturesFrom(s, i + 1)
  }

  function IntendedCaptures(s: string): seq<Capture> {
    IntendedCapturesFrom(s, 0)
  }

  /** The intended pattern captures the name and the parenthesised coordinate
      text of a `bbox2d <name> (<coords>)` answer. */
  lemma IntendedRoundTrip(name: string, coords: string)
    requires name != [] && forall j :: 0 <= j < |name| ==> LabelChar(name[j])
    requires ')' !in coords && '\n' !in coords
    ensures IntendedCaptures("bbox2d " + name + " (" + coords + ")") == [Capture(name, coords)]
  {
    var s := "bbox2d " + name + " (" + coords + ")";
    NotationLayout(name, coords);
    NotationMatch(s, name, coords);
    IntendedStep(s, 0);
    assert IntendedCapturesFrom(s, |s|) == [];
  }

  /** `s` is exactly  bbox2d <name> (<coords>). */
  predicate NotationText(s: string, name: string, coords: string) {
    var m, q := 7 + |name|, 9 + |name| + |coords|;
    && |s| == q + 1
    && s[..6] == "bbox2d" && s[6] == ' ' && s[7..m] == name && s[m] == ' ' && s[m + 1] == '('
    && s[m + 2..q] == coords && s[q] == ')'
  }

  lemma NotationLayout(name: string, coords: string)
    ensures NotationText("bbox2d " + name + " (" + coords + ")", name, coords)
  {
    var s := "bbox2d " + name + " (" + coords + ")";
    var m, q := 7 + |name|, 9 + |name| + |coords|;
    assert s[7..m] == name;
    assert s[m + 2..q] == coords;
  }

  /** The intended pattern matches the whole of such a text. */
  lemma NotationMatch(s: string, name: string, coords: string)
    requires NotationText(s, name, coords)
    requires name != [] && forall j :: 0 <= j < |name| ==> LabelChar(name[j])
    requires ')' !in coords && '\n' !in coords
    ensures IntendedMatchAt(s, 0) == Some((Capture(name, coords), |s|))
  {
    var m, q := 7 + |name|, 9 + |name| + |coords|;
    NotationLabel(s, name, coords);
    NotationCoords(s, name, coords);
    assert HasAt(s, "bbox2d", 0);
    IntendedMatchParts(s, 0, 7, m, m + 1, q);
  }

  /** The intended pattern matches at `i` when its pieces are found in turn:
      the keyword and a space, the label run, the `(` and the first `)`. */
  lemma IntendedMatchParts(s: string, i: nat, k: nat, m: nat, p: nat, q: nat)
    requires HasAt(s, "bbox2d", i) && i + 6 < |s| && IsSpace(s[i + 6])
    requires SkipSpace(s, i + 6) == k && RunEnd(s, k, LabelChar) == m && SkipSpace(s, m) == p
    requires k < m && p < |s| && s[p] == '('
    requires FindFrom(s, ")", p + 1) == Some(q) && '\n' !in s[p + 1..q]
    ensures IntendedMatchAt(s, i) == Some((Capture(s[k..m], s[p + 1..q]), q + 1))
  {
  }

  /** The label group spans `name`, and the `(` follows one space. */
  lemma NotationLabel(s: string, name: string, coords: string)
    requires NotationText(s, name, coords)
    requires name != [] && forall j :: 0 <= j < |name| ==> LabelChar(name[j])
    ensures SkipSpace(s, 6) == 7
    ensures RunEnd(s, 7, LabelChar) == 7 + |name|
    ensures SkipSpace(s, 7 + |name|) == 8 + |name|
  {
    var m := 7 + |name|;
    assert s[7] == s[7..m][0];
    forall j | 7 <= j < m ensures LabelChar(s[j]) {
      assert s[j] == s[7..m][j - 7];
    }
  }

  /** The coordinate group spans `coords`, up to the first `)`. */
  lemma NotationCoords(s: string, name: string, coords: string)
    requires NotationText(s, name, coords)
    requires ')' !in coords
    ensures FindFrom(s, ")", 9 + |name|) == Some(9 + |name| + |coords|)
  {
    var m, q := 7 + |name|, 9 + |name| + |coords|;
    forall j | m + 2 <= j < q ensures s[j] != ')' {
      assert s[j] == s[m + 2..q][j - m - 2];
    }
    assert HasAt(s, ")", q);
    FindFirstAt(s, ")", m + 2, q);
  }

  /** One step of the scan at a match of the intended pattern. */
  lemma IntendedStep(s: string, i: nat)
    requires i + 6 <= |s| && IntendedMatchAt(s, i).Some?
    ensures IntendedCapturesFrom(s, i)
            == [IntendedMatchAt(s, i).value.0] + IntendedCapturesFrom(s, IntendedMatchAt(s, i).value.1)
  {
  }

  // ---------------------------------------------------------------------------
  // re.search(r'\{.*\}', text, re.DOTALL) and re.search(r'\[.*\]', ...)

  /** The leftmost-longest span from an `open` to a `close` character: from the
      first `open` to the last `close`, when that `close` comes after it. */
  function GreedySpan(s: string, open: char, close: char): (r: Option<string>)
    ensures r.Some? ==> |r.value| >= 2 && r.value[0] == open && r.value[|r.value| - 1] == close
  {
    match (FirstIndex(s, open), LastIndexOf(s, close))
    case (Some(o), Some(c)) => if o < c then Some(s[o..c + 1]) else None
    case _ => None
  }

  function FirstIndex(s: string, c: char): (r: Option<nat>)
    ensures r.Some? ==> r.value < |s| && s[r.value] == c && forall j :: 0 <= j < r.value ==> s[j] != c
    ensures r.None? ==> forall j :: 0 <= j < |s| ==> s[j] != c
  {
    if s == [] then None
    else if s[0] == c then Some(0)
    else match FirstIndex(s[1..], c)
      case Some(k) => Some(k + 1)
      case None => None
  }

  function LastIndexOf(s: string, c: char): (r: Option<nat>)
    ensures r.Some? ==> r.value < |s| && s[r.value] == c && forall j :: r.value < j < |s| ==> s[j] != c
    ensures r.None? ==> forall j :: 0 <= j < |s| ==> s[j] != c
  {
    if s == [] then None
    else if s[|s| - 1] == c then Some(|s| - 1)
    else LastIndexOf(s[..|s| - 1], c)
  }

  /** The greedy search finds a span exactly when some `open` precedes some
      `close`. */
  lemma GreedySpanExists(s: string, open: char, close: char)
    ensures GreedySpan(s, open, close).Some?
            <==> (exists o, c :: 0 <= o < c < |s| && s[o] == open && s[c] == close)
  {
    if exists o, c :: 0 <= o < c < |s| && s[o] == open && s[c] == close {
      var o, c :| 0 <= o < c < |s| && s[o] == open && s[c] == close;
      var o', c' := FirstIndex(s, open).value, LastIndexOf(s, close).value;
      assert o' <= o && c <= c';
    }
  }
}
