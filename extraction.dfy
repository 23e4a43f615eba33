/** The tolerant box extractor shared by the chat dialog and the conversion
    script: a chain of four strategies over an assistant's answer, the first
    one that yields a box winning. */
module Extraction {
  import opened JsonValues
  import opened Text
  import opened Scanners

  /** A dict the extractor keeps: one that has both a `bbox_2d` and a `label`. */
  predicate IsBoxItem(m: Fields) {
    "bbox_2d" in m && "label" in m
  }

  predicate AllBoxItems(items: seq<Fields>) {
    forall k :: 0 <= k < |items| ==> IsBoxItem(items[k])
  }

  /** The dicts of a decoded list that have both keys, in list order. */
  function Keep(xs: seq<Json>): (r: seq<Fields>)
    ensures |r| <= |xs|
    ensures AllBoxItems(r)
  {
    if xs == [] then []
    else
      var last := xs[|xs| - 1];
      Keep(xs[..|xs| - 1]) + (if last.JObject? && IsBoxItem(last.fields) then [last.fields] else [])
  }

  /** Filtering a concatenation filters each part. */
  lemma {:induction false} KeepAppend(a: seq<Json>, b: seq<Json>)
    ensures Keep(a + b) == Keep(a) + Keep(b)
    decreases |b|
  {
    if b == [] {
      assert a + b == a;
    } else {
      var b' := b[..|b| - 1];
      assert (a + b)[..|a + b| - 1] == a + b';
      assert (a + b)[|a + b| - 1] == b[|b| - 1];
      KeepAppend(a, b');
    }
  }

  /** A dict is kept exactly when it is in the list and has both keys. */
  lemma {:induction false} KeepMembership(xs: seq<Json>, m: Fields)
    ensures m in Keep(xs) <==> JObject(m) in xs && IsBoxItem(m)
  {
    if xs != [] {
      var init := xs[..|xs| - 1];
      KeepMembership(init, m);
      assert xs == init + [xs[|xs| - 1]];
    }
  }

  /** The candidates one decoded value offers: the qualifying dicts of a list,
      or a qualifying dict by itself. */
  function Candidates(j: Json): (r: seq<Fields>)
    ensures AllBoxItems(r)
  {
    match j
    case JArray(xs) => Keep(xs)
    case JObject(m) => if IsBoxItem(m) then [m] else []
    case _ => []
  }

  /** Index of the first text that parses; `None` when none does. */
  function FirstParseable(parse: Parser, texts: seq<string>): (r: Option<nat>)
    ensures r.Some? ==> r.value < |texts| && parse(texts[r.value]).Some?
    ensures r.Some? ==> forall k :: 0 <= k < r.value ==> parse(texts[k]).None?
    ensures r.None? ==> forall k :: 0 <= k < |texts| ==> parse(texts[k]).None?
  {
    if texts == [] then None
    else if parse(texts[0]).Some? then Some(0)
    else match FirstParseable(parse, texts[1..])
      case Some(k) => Some(k + 1)
      case None => None
  }

  // ---------------------------------------------------------------------------
  // The four strategies

  /** Stage 1: the whole answer as one JSON value. */
  function WholeText(parse: Parser, text: string): (r: seq<Fields>)
    ensures AllBoxItems(r)
  {
    match parse(text)
    case Some(j) => Candidates(j)
    case None => []
  }

  /** Stage 2 (and the retry inside an `<answer>` body): the candidates of
      the first block that parses; later blocks are never looked at. */
  function FirstBlock(parse: Parser, blocks: seq<string>): (r: seq<Fields>)
    ensures AllBoxItems(r)
  {
    match FirstParseable(parse, blocks)
    case Some(k) => Candidates(parse(blocks[k]).value)
    case None => []
  }

  /** Stage 3: the first `<answer>` body that parses ends the scan; a body
      that does not parse has its fenced blocks tried, and the scan ends
      there only when that produced a box. */
  function Answers(parse: Parser, bodies: seq<string>): (r: seq<Fields>)
    ensures AllBoxItems(r)
  {
    if bodies == [] then []
    else match parse(bodies[0])
      case Some(j) => Candidates(j)
      case None =>
        var nested := FirstBlock(parse, FencedBlocks(bodies[0], AnyWord));
        if nested != [] then nested else Answers(parse, bodies[1..])
  }

  /** The dict stage 4 builds. */
  function BoxItem(name: string, coords: Json): (m: Fields)
    ensures IsBoxItem(m)
  {
    map["label" := JString(name), "bbox_2d" := coords]
  }

  /** `[float(c) for c in tokens]`. */
  function TokenValues(toks: seq<string>): (r: seq<Json>)
    requires forall t :: t in toks ==> IsNumberToken(t)
    ensures |r| == |toks|
    ensures forall k :: 0 <= k < |r| ==> r[k] == JNum(TokenValue(toks[k]))
  {
    if toks == [] then [] else [JNum(TokenValue(toks[0]))] + TokenValues(toks[1..])
  }

  /** What one `bbox2d` capture contributes: the coordinate text wrapped in
      brackets and decoded, kept when it has four elements; when it does not
      decode, its decimal tokens, kept when there are four. A bracketed text
      that decodes is a list, so `len` applies. */
  function CaptureBox(parse: Parser, c: Capture): (r: seq<Fields>)
    ensures |r| <= 1
    ensures parse("[" + c.coords + "]").Some? ==>
      var j := parse("[" + c.coords + "]").value;
      && (|r| == 1 <==> Len(j) == Some(4))
      && (|r| == 1 ==> r[0] == BoxItem(c.name, j))
    ensures parse("[" + c.coords + "]").None? ==>
      var toks := NumberTokens(c.coords);
      && (|r| == 1 <==> |toks| == 4)
      && (forall t :: t in toks ==> IsNumberToken(t))
      && (|r| == 1 ==> r[0] == BoxItem(c.name, JArray(TokenValues(toks))))
  {
    match parse("[" + c.coords + "]")
    case Some(j) => if Len(j) == Some(4) then [BoxItem(c.name, j)] else []
    case None =>
      var toks := NumberTokens(c.coords);
      NumberTokensWellFormed(c.coords, 0);
      if |toks| == 4 then [BoxItem(c.name, JArray(TokenValues(toks)))] else []
  }

  /** Stage 4: every capture of the notation, in order. */
  function Notation(parse: Parser, caps: seq<Capture>): (r: seq<Fields>)
    ensures |r| <= |caps|
    ensures AllBoxItems(r)
  {
    if caps == [] then [] else CaptureBox(parse, caps[0]) + Notation(parse, caps[1..])
  }

  /** The four strategies in the order they are tried. */
  function Stages(parse: Parser, text: string, caps: seq<Capture>): (r: seq<seq<Fields>>)
    ensures |r| == 4
    ensures forall k :: 0 <= k < 4 ==> AllBoxItems(r[k])
  {
    [ WholeText(parse, text),
      FirstBlock(parse, FencedBlocks(text, AnyWord)),
      Answers(parse, AnswerBodies(text)),
      Notation(parse, caps) ]
  }

  /** The first non-empty result of a strategy list. */
  function FirstNonEmpty(results: seq<seq<Fields>>): seq<Fields> {
    if results == [] then []
    else if results[0] != [] then results[0]
    else FirstNonEmpty(results[1..])
  }

  /** `_extract_bbox_data` / `extract_bbox_data`, with the `bbox2d` notation
      recognised by the evidently intended pattern. */
  function ExtractBboxData(parse: Parser, text: string): (r: seq<Fields>)
    ensures AllBoxItems(r)
  {
    var stages := Stages(parse, text, IntendedCaptures(text));
    StagesAreBoxItems(stages);
    FirstNonEmpty(stages)
  }

  /** The same chain with the `bbox2d` pattern exactly as written. */
  function ExtractBboxDataAsWritten(parse: Parser, text: string): (r: seq<Fields>)
    ensures AllBoxItems(r)
  {
    var stages := Stages(parse, text, LiteralCaptures(text));
    StagesAreBoxItems(stages);
    FirstNonEmpty(stages)
  }

  lemma {:induction false} StagesAreBoxItems(results: seq<seq<Fields>>)
    requires forall k :: 0 <= k < |results| ==> AllBoxItems(results[k])
    ensures AllBoxItems(FirstNonEmpty(results))
  {
    if results != [] && results[0] == [] {
      StagesAreBoxItems(results[1..]);
    }
  }

  // ---------------------------------------------------------------------------
  // Properties of the chain

  /** A strategy's result is returned exactly when every earlier strategy
      produced nothing and it produced something. */
  lemma {:induction false} FirstNonEmptyPicks(results: seq<seq<Fields>>, k: nat)
    requires k < |results| && results[k] != []
    requires forall j :: 0 <= j < k ==> results[j] == []
    ensures FirstNonEmpty(results) == results[k]
  {
    if k > 0 {
      FirstNonEmptyPicks(results[1..], k - 1);
    }
  }

  /** The chain yields nothing exactly when every strategy yields nothing. */
  lemma {:induction false} FirstNonEmptyEmpty(results: seq<seq<Fields>>)
    ensures FirstNonEmpty(results) == [] <==> forall j :: 0 <= j < |results| ==> results[j] == []
  {
    if results != [] && results[0] == [] {
      FirstNonEmptyEmpty(results[1..]);
      assert forall j :: 1 <= j < |results| ==> results[j] == results[1..][j - 1];
    }
  }

  /** Stage order of the extractor as written: it returns stage `k`'s boxes
      when stages before `k` found none and stage `k` found some. */
  lemma ExtractStageOrder(parse: Parser, text: string, k: nat)
    requires k < 4
    requires Stages(parse, text, LiteralCaptures(text))[k] != []
    requires forall j :: 0 <= j < k ==> Stages(parse, text, LiteralCaptures(text))[j] == []
    ensures ExtractBboxDataAsWritten(parse, text) == Stages(parse, text, LiteralCaptures(text))[k]
  {
    FirstNonEmptyPicks(Stages(parse, text, LiteralCaptures(text)), k);
  }

  /** The extractor as written yields nothing exactly when all four
      strategies do. */
  lemma ExtractEmpty(parse: Parser, text: string)
    ensures ExtractBboxDataAsWritten(parse, text) == []
            <==> forall j :: 0 <= j < 4 ==> Stages(parse, text, LiteralCaptures(text))[j] == []
  {
    FirstNonEmptyEmpty(Stages(parse, text, LiteralCaptures(text)));
  }

  lemma {:induction false} FirstParseableAt(parse: Parser, texts: seq<string>, k: nat)
    requires k < |texts| && parse(texts[k]).Some?
    requires forall i :: 0 <= i < k ==> parse(texts[i]).None?
    ensures FirstParseable(parse, texts) == Some(k)
  {
    if k > 0 {
      FirstParseableAt(parse, texts[1..], k - 1);
    }
  }

  /** In the block stage the first block that parses decides, even when it
      holds no box: blocks after it are never looked at. */
  lemma FirstBlockDecides(parse: Parser, blocks: seq<string>, k: nat, j: Json)
    requires k < |blocks| && parse(blocks[k]) == Some(j)
    requires forall i :: 0 <= i < k ==> parse(blocks[i]).None?
    ensures FirstBlock(parse, blocks) == Candidates(j)
    ensures FirstBlock(parse, blocks) == FirstBlock(parse, blocks[..k + 1])
  {
    FirstParseableAt(parse, blocks, k);
    var prefix := blocks[..k + 1];
    assert forall i :: 0 <= i <= k ==> prefix[i] == blocks[i];
    FirstParseableAt(parse, prefix, k);
  }

  /** In the answer stage the first body that parses ends the scan, whatever
      it holds, when no earlier body's blocks produced a box. */
  lemma {:induction false} AnswersFirstParsedBody(parse: Parser, bodies: seq<string>, k: nat, j: Json)
    requires k < |bodies| && parse(bodies[k]) == Some(j)
    requires forall i :: 0 <= i < k ==> parse(bodies[i]).None?
    requires forall i :: 0 <= i < k ==> FirstBlock(parse, FencedBlocks(bodies[i], AnyWord)) == []
    ensures Answers(parse, bodies) == Candidates(j)
  {
    if k > 0 {
      AnswersFirstParsedBody(parse, bodies[1..], k - 1, j);
    }
  }

  /** A text that decodes to one qualifying dict yields exactly that dict,
      under the pattern as written and the corrected one alike. */
  lemma WholeDict(parse: Parser, text: string, m: Fields)
    requires parse(text) == Some(JObject(m)) && IsBoxItem(m)
    ensures ExtractBboxDataAsWritten(parse, text) == [m]
    ensures ExtractBboxData(parse, text) == [m]
  {
    ExtractStageOrder(parse, text, 0);
    FirstNonEmptyPicks(Stages(parse, text, IntendedCaptures(text)), 0);
  }

  /** An answer that does not decode as a whole and whose only backticks
      are the fences of one ```json block yields the candidates of the
      block's JSON, when it has any (under either pattern). */
  lemma FencedAnswer(parse: Parser, text: string, i: nat, body: string, j: Json)
    requires JsonBlockAt(text, i, body)
    requires '`' !in text[..i] && '`' !in text[i + 12 + |body|..]
    requires parse(text).None?
    requires parse(body) == Some(j) && Candidates(j) != []
    ensures ExtractBboxDataAsWritten(parse, text) == Candidates(j)
    ensures ExtractBboxData(parse, text) == Candidates(j)
  {
    FencedRoundTrip(text, i, body, AnyWord);
    FirstBlockDecides(parse, [body], 0, j);
    BlockStageDecides(parse, text);
  }

  /** Without a decodable whole, a non-empty block stage is the result. */
  lemma BlockStageDecides(parse: Parser, text: string)
    requires parse(text).None?
    requires FirstBlock(parse, FencedBlocks(text, AnyWord)) != []
    ensures ExtractBboxDataAsWritten(parse, text) == FirstBlock(parse, FencedBlocks(text, AnyWord))
    ensures ExtractBboxData(parse, text) == FirstBlock(parse, FencedBlocks(text, AnyWord))
  {
    ExtractStageOrder(parse, text, 1);
    FirstNonEmptyPicks(Stages(parse, text, IntendedCaptures(text)), 1);
  }

  /** Without a decodable whole, a fence or an answer tag, the three JSON
      strategies find nothing. */
  lemma NoJsonStages(parse: Parser, text: string, caps: seq<Capture>)
    requires parse(text).None? && '`' !in text && '<' !in text
    ensures Stages(parse, text, caps)[..3] == [[], [], []]
  {
    NoFenceNoBlocks(text);
    NoTagNoBodies(text, 0);
  }

  /** Text in which no strategy can find anything yields no box: no
      decodable whole, no fence, no answer tag and no `bbox2d`. */
  lemma NothingFound(parse: Parser, text: string)
    requires parse(text).None?
    requires '`' !in text && '<' !in text && !Contains(text, "bbox2d")
    ensures ExtractBboxDataAsWritten(parse, text) == []
    ensures ExtractBboxData(parse, text) == []
  {
    var literal := Stages(parse, text, LiteralCaptures(text));
    NoJsonStages(parse, text, LiteralCaptures(text));
    NoLiteralNotation(text, 0);
    assert literal[..3][0] == literal[0] && literal[..3][1] == literal[1] && literal[..3][2] == literal[2];
    ExtractEmpty(parse, text);
    var intended := Stages(parse, text, IntendedCaptures(text));
    NoJsonStages(parse, text, IntendedCaptures(text));
    NoNotation(text, 0);
    assert intended[..3][0] == intended[0] && intended[..3][1] == intended[1] && intended[..3][2] == intended[2];
    FirstNonEmptyEmpty(intended);
  }

  lemma NoFenceNoBlocks(text: string)
    requires '`' !in text
    ensures FencedBlocks(text, AnyWord) == []
  {
    FencedSkip(text, 0, |text|, AnyWord);
    FencedTail(text, |text|, AnyWord);
  }

  lemma {:induction false} NoTagNoBodies(text: string, i: nat)
    requires i <= |text| && '<' !in text
    ensures AnswerBodiesFrom(text, i) == []
    decreases |text| - i
  {
    if i + 8 <= |text| {
      assert text[i..i + 8][0] == text[i];
      NoTagNoBodies(text, i + 1);
    }
  }

  lemma {:induction false} NoNotation(text: string, i: nat)
    requires i <= |text| && !Contains(text, "bbox2d")
    ensures IntendedCapturesFrom(text, i) == []
    decreases |text| - i
  {
    if i + 6 <= |text| {
      if HasAt(text, "bbox2d", i) {
        ContainsAt(text, "bbox2d", i);
      }
      NoNotation(text, i + 1);
    }
  }

  lemma {:induction false} NoLiteralNotation(text: string, i: nat)
    requires i <= |text| && !Contains(text, "bbox2d")
    ensures LiteralCapturesFrom(text, i) == []
    decreases |text| - i
  {
    if i + 6 <= |text| {
      if HasAt(text, "bbox2d", i) {
        ContainsAt(text, "bbox2d", i);
      }
      NoLiteralNotation(text, i + 1);
    }
  }

  // ---------------------------------------------------------------------------
  // The pattern as written

  /** Under the pattern as written the notation stage contributes nothing: the
      coordinate capture is always empty and `[]` has no four elements. */
  lemma LiteralNotationEmpty(parse: Parser, text: string)
    requires parse("[]") == Some(JArray([]))
    ensures Notation(parse, LiteralCaptures(text)) == []
  {
    LiteralCoordsEmpty(text, 0);
    LiteralNotationEmptyFrom(parse, LiteralCaptures(text));
  }

  lemma {:induction false} LiteralNotationEmptyFrom(parse: Parser, caps: seq<Capture>)
    requires parse("[]") == Some(JArray([]))
    requires forall c :: c in caps ==> c.coords == ""
    ensures Notation(parse, caps) == []
  {
    if caps != [] {
      assert "[" + caps[0].coords + "]" == "[]";
      LiteralNotationEmptyFrom(parse, caps[1..]);
    }
  }

  /** The chain as written agrees with the intended one whenever one of the
      JSON strategies finds a box, and yields nothing otherwise. */
  lemma AsWrittenVersusIntended(parse: Parser, text: string)
    requires parse("[]") == Some(JArray([]))
    ensures var json := Stages(parse, text, [])[..3];
      ExtractBboxDataAsWritten(parse, text)
      == if json == [[], [], []] then [] else ExtractBboxData(parse, text)
  {
    LiteralNotationEmpty(parse, text);
    SharedJsonStages(Stages(parse, text, LiteralCaptures(text)),
                     Stages(parse, text, IntendedCaptures(text)));
  }

  /** Two stage lists that agree on the JSON stages, the first of which has
      an empty notation stage, pick the same result unless the JSON stages
      all come up empty. */
  lemma SharedJsonStages(lit: seq<seq<Fields>>, fixd: seq<seq<Fields>>)
    requires |lit| == 4 && |fixd| == 4 && lit[..3] == fixd[..3] && lit[3] == []
    ensures FirstNonEmpty(lit) == if lit[..3] == [[], [], []] then [] else FirstNonEmpty(fixd)
  {
    assert lit[0] == fixd[0] && lit[1] == fixd[1] && lit[2] == fixd[2] by {
      assert lit[..3][0] == lit[0] && lit[..3][1] == lit[1] && lit[..3][2] == lit[2];
    }
    if lit[0] != [] {
      FirstNonEmptyPicks(lit, 0);
      FirstNonEmptyPicks(fixd, 0);
    } else if lit[1] != [] {
      FirstNonEmptyPicks(lit, 1);
      FirstNonEmptyPicks(fixd, 1);
    } else if lit[2] != [] {
      FirstNonEmptyPicks(lit, 2);
      FirstNonEmptyPicks(fixd, 2);
    } else {
      assert lit[..3] == [[], [], []];
      FirstNonEmptyEmpty(lit);
    }
  }

  /** The answer `bbox2d cat (10,20,30,40)` shows the difference: the
      pattern as written finds no box in it, the intended pattern finds the
      box labelled `cat`. */
  lemma NotationCounterexample(parse: Parser, text: string, coords: Json)
    requires text == "bbox2d cat (10,20,30,40)"
    requires parse(text).None?
    requires parse("[]") == Some(JArray([]))
    requires parse("[10,20,30,40]") == Some(coords) && Len(coords) == Some(4)
    ensures ExtractBboxDataAsWritten(parse, text) == []
    ensures ExtractBboxData(parse, text) == [BoxItem("cat", coords)]
  {
    CatAsWritten(parse, text);
    CatIntended(parse, text, coords);
  }

  lemma CatAsWritten(parse: Parser, text: string)
    requires text == "bbox2d cat (10,20,30,40)"
    requires parse(text).None?
    requires parse("[]") == Some(JArray([]))
    ensures ExtractBboxDataAsWritten(parse, text) == []
  {
    NotationText("cat", "10,20,30,40");
    NoJsonStages(parse, text, []);
    AsWrittenVersusIntended(parse, text);
  }

  lemma CatIntended(parse: Parser, text: string, coords: Json)
    requires text == "bbox2d cat (10,20,30,40)"
    requires parse(text).None?
    requires parse("[10,20,30,40]") == Some(coords) && Len(coords) == Some(4)
    ensures ExtractBboxData(parse, text) == [BoxItem("cat", coords)]
  {
    CatParts();
    CatChars();
    NotationFound(parse, "cat", "10,20,30,40", coords);
  }

  lemma CatParts()
    ensures "bbox2d cat (10,20,30,40)" == "bbox2d " + "cat" + " (" + "10,20,30,40" + ")"
    ensures "[10,20,30,40]" == "[" + "10,20,30,40" + "]"
  {
  }

  lemma CatChars()
    ensures forall i :: 0 <= i < |"cat"| ==> LabelChar("cat"[i])
    ensures ')' !in "10,20,30,40" && '\n' !in "10,20,30,40" && '`' !in "10,20,30,40" && '<' !in "10,20,30,40"
    ensures '`' !in "cat" && '<' !in "cat"
  {
  }

  /** Through the whole chain, an answer in the intended notation whose
      coordinate text decodes to four elements yields exactly that box. */
  lemma NotationFound(parse: Parser, name: string, c: string, coords: Json)
    requires name != [] && forall i :: 0 <= i < |name| ==> LabelChar(name[i])
    requires ')' !in c && '\n' !in c
    requires '`' !in name && '<' !in name && '`' !in c && '<' !in c
    requires parse("bbox2d " + name + " (" + c + ")").None?
    requires parse("[" + c + "]") == Some(coords) && Len(coords) == Some(4)
    ensures ExtractBboxData(parse, "bbox2d " + name + " (" + c + ")") == [BoxItem(name, coords)]
  {
    var text := "bbox2d " + name + " (" + c + ")";
    NotationText(name, c);
    NotationStage(parse, name, c, coords);
    NotationDecides(parse, text, [BoxItem(name, coords)]);
  }

  /** Text without fences or tags that the whole-text decode rejects is
      decided by the notation stage. */
  lemma NotationDecides(parse: Parser, text: string, boxes: seq<Fields>)
    requires parse(text).None? && '`' !in text && '<' !in text
    requires Notation(parse, IntendedCaptures(text)) == boxes != []
    ensures ExtractBboxData(parse, text) == boxes
  {
    var stages := Stages(parse, text, IntendedCaptures(text));
    NoJsonStages(parse, text, IntendedCaptures(text));
    assert stages[..3][0] == stages[0] && stages[..3][1] == stages[1] && stages[..3][2] == stages[2];
    FirstNonEmptyPicks(stages, 3);
  }

  lemma NotationText(name: string, c: string)
    requires '`' !in name && '<' !in name && '`' !in c && '<' !in c
    ensures var text := "bbox2d " + name + " (" + c + ")"; '`' !in text && '<' !in text
  {
    var text := "bbox2d " + name + " (" + c + ")";
    assert text == "bbox2d " + name + " (" + c + ")";
    assert '`' !in "bbox2d " && '<' !in "bbox2d " && '`' !in " (" && '<' !in " (";
  }

  lemma NotationStage(parse: Parser, name: string, c: string, coords: Json)
    requires name != [] && forall i :: 0 <= i < |name| ==> LabelChar(name[i])
    requires ')' !in c && '\n' !in c
    requires parse("[" + c + "]") == Some(coords) && Len(coords) == Some(4)
    ensures Notation(parse, IntendedCaptures("bbox2d " + name + " (" + c + ")")) == [BoxItem(name, coords)]
  {
    IntendedRoundTrip(name, c);
    var cap := Capture(name, c);
    assert CaptureBox(parse, cap) == [BoxItem(name, coords)];
    assert Notation(parse, [cap]) == CaptureBox(parse, cap) + Notation(parse, []);
  }
}
