/** The command-line converter from a VLM-R1-OVD JSONL file (one entry per
    line: an image name and a conversation) to one XLABEL document per
    image. The file system is given as two functions: whether a path exists,
    and the size of the image at a path (`None` when it cannot be opened). */
module ConvertScript {
  import opened JsonValues
  import opened Text
  import opened Paths
  import opened Scanners
  import opened Extraction
  import opened Shapes
  import opened Documents

  /** The XLABEL document the script writes; `flags` is always `{}`,
      `description` always `""` and `imageData` always null. */
  datatype XLabel = XLabel(version: string, shapes: seq<Shape>, imagePath: string, imageWidth: int, imageHeight: int)

  /** What converting one entry does: nothing because it names no image, an
      exception (caught by the line loop), or one document written. */
  datatype Outcome = NoImage | Raised | Written(path: string, doc: XLabel)

  type Exists = string -> bool
  type ImageSize = string -> Option<(nat, nat)>

  const DefaultSize: (nat, nat) := (1024, 538)

  /** `get_image_size`: the image's size, or 1024 x 538 when it cannot be
      opened. */
  function GetImageSize(size: ImageSize, path: string): (r: (nat, nat))
    ensures size(path).Some? ==> r == size(path).value
    ensures size(path).None? ==> r == DefaultSize
  {
    match size(path)
    case Some(wh) => wh
    case None => DefaultSize
  }

  /** The size the entry's document gets: the opened image's when its path
      exists, 1024 x 538 otherwise. */
  function EntrySize(present: Exists, size: ImageSize, imagePath: string): (r: (nat, nat))
    ensures !present(imagePath) ==> r == DefaultSize
  {
    if present(imagePath) then GetImageSize(size, imagePath) else DefaultSize
  }

  /** The `value` of the first conversation whose `from` is "assistant" (""
      when none is); `None` when the loop raises, that is when it meets an
      element that is not a dict. */
  function AssistantContent(conversations: Json): (r: Option<Json>)
  {
    match Iterate(conversations)
    case Elements(xs) => FirstAssistant(xs)
    case Strings(n) => if n == 0 then Some(JString("")) else None
    case NotIterable => None
  }

  function FirstAssistant(xs: seq<Json>): (r: Option<Json>)
    ensures r.None? ==> exists k :: 0 <= k < |xs| && !xs[k].JObject?
    ensures (forall k :: 0 <= k < |xs| ==> xs[k].JObject?) ==> r.Some?
  {
    if xs == [] then Some(JString(""))
    else if !xs[0].JObject? then None
    else if IsAssistant(xs[0]) then Some(Get(xs[0].fields, "value", JString("")))
    else FirstAssistant(xs[1..])
  }

  predicate IsAssistant(conv: Json) {
    conv.JObject? && IsText(Get(conv.fields, "from", JNull), "assistant")
  }

  /** `convert_entry_to_xlabel`. */
  function ConvertEntry(parse: Parser, present: Exists, size: ImageSize,
                        entry: Json, outputDir: string, imageDir: string): Outcome
  {
    if !entry.JObject? then Raised
    else
      var image := Get(entry.fields, "image", JString(""));
      if !Truthy(image) then NoImage
      else if !image.JString? then Raised
      else
        var name := image.s;
        var imagePath := if imageDir != "" then Join(imageDir, Basename(name)) else name;
        var wh := EntrySize(present, size, imagePath);
        match AssistantContent(Get(entry.fields, "conversations", JArray([])))
        case None => Raised
        case Some(content) =>
          if !Truthy(content) then Written(XLabelPath(outputDir, name), XLabel("4.0", [], Basename(name), wh.0, wh.1))
          else if !content.JString? then Raised
          else match OrderedShapes(ExtractBboxDataAsWritten(parse, content.s), wh.0, wh.1)
            case None => Raised
            case Some(shapes) => Written(XLabelPath(outputDir, name), XLabel("4.0", shapes, Basename(name), wh.0, wh.1))
  }

  /** An entry without a truthy `image` writes nothing. */
  lemma NoImageNoWrite(parse: Parser, present: Exists, size: ImageSize, m: Fields, outputDir: string, imageDir: string)
    requires "image" !in m || !Truthy(m["image"])
    ensures ConvertEntry(parse, present, size, JObject(m), outputDir, imageDir) == NoImage
  {
  }

  /** Every written document is named after the image's stem, records the
      image's base name and the size found for the image, and holds the
      ordered rectangles of the first assistant answer as the script
      extracts them (none for a falsy answer), each inside the image. */
  lemma WrittenDocument(parse: Parser, present: Exists, size: ImageSize, entry: Json, outputDir: string, imageDir: string)
    requires ConvertEntry(parse, present, size, entry, outputDir, imageDir).Written?
    ensures var o := ConvertEntry(parse, present, size, entry, outputDir, imageDir);
      && entry.JObject? && "image" in entry.fields && entry.fields["image"].JString?
      && var name := entry.fields["image"].s;
      && o.path == Join(outputDir, Stem(name) + ".json")
      && o.doc.imagePath == Basename(name) && o.doc.version == "4.0"
      && var wh := EntrySize(present, size, if imageDir != "" then Join(imageDir, Basename(name)) else name);
      && o.doc.imageWidth == wh.0 && o.doc.imageHeight == wh.1
      && var content := AssistantContent(Get(entry.fields, "conversations", JArray([])));
      && content.Some?
      && (!Truthy(content.value) ==> o.doc.shapes == [])
      && (Truthy(content.value) ==>
            content.value.JString?
            && OrderedShapes(ExtractBboxDataAsWritten(parse, content.value.s), wh.0, wh.1) == Some(o.doc.shapes))
      && forall s :: s in o.doc.shapes ==> Ordered(s.points, o.doc.imageWidth as real, o.doc.imageHeight as real)
  {
    var name := entry.fields["image"].s;
    var imagePath := if imageDir != "" then Join(imageDir, Basename(name)) else name;
    var wh := EntrySize(present, size, imagePath);
    var content := AssistantContent(Get(entry.fields, "conversations", JArray([]))).value;
    if Truthy(content) {
      OrderedShapesOrdered(ExtractBboxDataAsWritten(parse, content.s), wh.0, wh.1);
    }
  }

  /** An entry whose assistant text is empty still gets a document, with no
      shapes. */
  lemma EmptyAnswerWritesEmptyDocument(parse: Parser, present: Exists, size: ImageSize,
                                       name: string, conversations: seq<Json>, outputDir: string, imageDir: string)
    requires name != []
    requires forall k :: 0 <= k < |conversations| ==> conversations[k].JObject? && !IsAssistant(conversations[k])
    ensures var o := ConvertEntry(parse, present, size,
                                  JObject(map["image" := JString(name), "conversations" := JArray(conversations)]),
                                  outputDir, imageDir);
      o.Written? && o.path == XLabelPath(outputDir, name) && o.doc.shapes == []
  {
    NoAssistant(conversations);
    var m := map["image" := JString(name), "conversations" := JArray(conversations)];
    assert Get(m, "image", JString("")) == JString(name);
    assert Get(m, "conversations", JArray([])) == JArray(conversations);
  }

  /** An entry whose first assistant turn has an empty, null or missing
      `value` gets a document with no shapes too; the turns after it are
      never looked at. */
  lemma FalsyAnswerWritesEmptyDocument(parse: Parser, present: Exists, size: ImageSize, name: string,
                                       before: seq<Json>, turn: Fields, after: seq<Json>,
                                       outputDir: string, imageDir: string)
    requires name != []
    requires forall k :: 0 <= k < |before| ==> before[k].JObject? && !IsAssistant(before[k])
    requires IsAssistant(JObject(turn)) && !Truthy(Get(turn, "value", JString("")))
    ensures var o := ConvertEntry(parse, present, size,
                                  JObject(map["image" := JString(name),
                                              "conversations" := JArray(before + [JObject(turn)] + after)]),
                                  outputDir, imageDir);
      o.Written? && o.path == XLabelPath(outputDir, name) && o.doc.shapes == []
  {
    var conversations := before + [JObject(turn)] + after;
    FirstAssistantAt(before, turn, after);
    var m := map["image" := JString(name), "conversations" := JArray(conversations)];
    assert Get(m, "image", JString("")) == JString(name);
    assert Get(m, "conversations", JArray([])) == JArray(conversations);
  }

  /** The first assistant turn ends the search: its `value`, `""` when it
      has none, is the answer, whatever follows it. */
  lemma {:induction false} FirstAssistantAt(before: seq<Json>, turn: Fields, after: seq<Json>)
    requires forall k :: 0 <= k < |before| ==> before[k].JObject? && !IsAssistant(before[k])
    requires IsAssistant(JObject(turn))
    ensures FirstAssistant(before + [JObject(turn)] + after) == Some(Get(turn, "value", JString("")))
  {
    var xs := before + [JObject(turn)] + after;
    if before != [] {
      assert xs[0] == before[0];
      assert xs[1..] == before[1..] + [JObject(turn)] + after;
      FirstAssistantAt(before[1..], turn, after);
    } else {
      assert xs[0] == JObject(turn);
    }
  }

  /** An answer written only in the `bbox2d` notation, with no JSON, fence
      or answer tag in it, gives a document without shapes: the pattern as
      written never captures coordinates. */
  lemma NotationOnlyAnswerWritesNoShapes(parse: Parser, present: Exists, size: ImageSize, name: string,
                                         conversations: seq<Json>, text: string,
                                         outputDir: string, imageDir: string)
    requires name != []
    requires parse("[]") == Some(JArray([]))
    requires text != "" && parse(text).None? && '`' !in text && '<' !in text
    requires AssistantContent(JArray(conversations)) == Some(JString(text))
    ensures var o := ConvertEntry(parse, present, size,
                                  JObject(map["image" := JString(name), "conversations" := JArray(conversations)]),
                                  outputDir, imageDir);
      o.Written? && o.path == XLabelPath(outputDir, name) && o.doc.shapes == []
  {
    AsWrittenVersusIntended(parse, text);
    NoJsonStages(parse, text, []);
    assert ExtractBboxDataAsWritten(parse, text) == [];
    var m := map["image" := JString(name), "conversations" := JArray(conversations)];
    assert Get(m, "image", JString("")) == JString(name);
    assert Get(m, "conversations", JArray([])) == JArray(conversations);
  }

  lemma {:induction false} NoAssistant(xs: seq<Json>)
    requires forall k :: 0 <= k < |xs| ==> xs[k].JObject? && !IsAssistant(xs[k])
    ensures FirstAssistant(xs) == Some(JString(""))
  {
    if xs != [] {
      NoAssistant(xs[1..]);
    }
  }

  /** The content of the first message of a chat history whose role is
      `assistant`, `""` when there is none. */
  function FirstAssistantMessage(msgs: seq<Fields>): Json {
    if msgs == [] then JString("")
    else if Get(msgs[0], "role", JString("")) == JString("assistant") then Get(msgs[0], "content", JString(""))
    else FirstAssistantMessage(msgs[1..])
  }

  /** A JSONL entry generated from a chat history is read back by the
      converter as the first assistant message of that history. */
  lemma {:induction false} ConvertsGeneratedHistory(msgs: seq<Fields>)
    ensures AssistantContent(JArray(Turns(msgs))) == Some(FirstAssistantMessage(msgs))
  {
    if msgs != [] {
      var turns := Turns(msgs);
      assert turns[1..] == Turns(msgs[1..]);
      ConvertsGeneratedHistory(msgs[1..]);
    }
  }

  // ---------------------------------------------------------------------------
  // The JSONL driver

  /** What the driver does with each line, in order: skip it when it is
      blank or does not decode, otherwise convert it; returns the number of
      documents written and the writes themselves. */
  function ConvertLines(parse: Parser, present: Exists, size: ImageSize,
                        lines: seq<string>, outputDir: string, imageDir: string): (r: (nat, seq<(string, XLabel)>))
    ensures r.0 == |r.1| <= |lines|
  {
    if lines == [] then (0, [])
    else
      var before := ConvertLines(parse, present, size, lines[..|lines| - 1], outputDir, imageDir);
      match LineOutcome(parse, present, size, lines[|lines| - 1], outputDir, imageDir)
      case Written(path, doc) => (before.0 + 1, before.1 + [(path, doc)])
      case _ => before
  }

  function LineOutcome(parse: Parser, present: Exists, size: ImageSize,
                       line: string, outputDir: string, imageDir: string): Outcome
  {
    var text := Strip(line);
    if text == "" then NoImage
    else match parse(text)
      case None => NoImage
      case Some(entry) => ConvertEntry(parse, present, size, entry, outputDir, imageDir)
  }

  /** Blank lines and lines that do not decode change nothing. */
  lemma SkippedLine(parse: Parser, present: Exists, size: ImageSize,
                    lines: seq<string>, line: string, outputDir: string, imageDir: string)
    requires Strip(line) == "" || parse(Strip(line)).None?
    ensures ConvertLines(parse, present, size, lines + [line], outputDir, imageDir)
            == ConvertLines(parse, present, size, lines, outputDir, imageDir)
  {
    assert (lines + [line])[..|lines|] == lines;
  }

  /** The count is the number of lines whose entry was written. */
  lemma {:induction false} CountIsWritten(parse: Parser, present: Exists, size: ImageSize,
                                          lines: seq<string>, outputDir: string, imageDir: string)
    ensures ConvertLines(parse, present, size, lines, outputDir, imageDir).0
            == |WrittenLines(parse, present, size, lines, outputDir, imageDir)|
  {
    if lines != [] {
      CountIsWritten(parse, present, size, lines[..|lines| - 1], outputDir, imageDir);
    }
  }

  /** The lines whose entry produced a document. */
  function WrittenLines(parse: Parser, present: Exists, size: ImageSize,
                        lines: seq<string>, outputDir: string, imageDir: string): (r: seq<string>)
    ensures forall l :: l in r ==> l in lines && LineOutcome(parse, present, size, l, outputDir, imageDir).Written?
  {
    if lines == [] then []
    else
      var init := WrittenLines(parse, present, size, lines[..|lines| - 1], outputDir, imageDir);
      var last := lines[|lines| - 1];
      if LineOutcome(parse, present, size, last, outputDir, imageDir).Written? then init + [last] else init
  }

  /** `convert_vlm_r1_ovd_to_xlabel`'s line loop. */
  method ConvertFile(parse: Parser, present: Exists, size: ImageSize,
                     lines: seq<string>, outputDir: string, imageDir: string)
    returns (convertedCount: nat, writes: seq<(string, XLabel)>)
    ensures (convertedCount, writes) == ConvertLines(parse, present, size, lines, outputDir, imageDir)
  {
    convertedCount, writes := 0, [];
    var n := 0;
    while n < |lines|
      invariant n <= |lines|
      invariant (convertedCount, writes) == ConvertLines(parse, present, size, lines[..n], outputDir, imageDir)
    {
      assert lines[..n + 1][..n] == lines[..n];
      var outcome := ConvertLine(parse, present, size, lines[n], outputDir, imageDir);
      if outcome.Written? {
        writes := writes + [(outcome.path, outcome.doc)];
        convertedCount := convertedCount + 1;
      }
      n := n + 1;
    }
    assert lines[..n] == lines;
  }

  // ---------------------------------------------------------------------------
  // The script's loops

  /** One line of the input: blank and undecodable lines are skipped. */
  method ConvertLine(parse: Parser, present: Exists, size: ImageSize,
                     line: string, outputDir: string, imageDir: string) returns (outcome: Outcome)
    ensures outcome == LineOutcome(parse, present, size, line, outputDir, imageDir)
  {
    outcome := NoImage;
    var text := Strip(line);
    if text != "" {
      var entry := parse(text);
      if entry.Some? {
        outcome := ConvertEntryLoops(parse, present, size, entry.value, outputDir, imageDir);
      }
    }
  }

  /** `convert_entry_to_xlabel` with its conversation search and its shapes
      loop. */
  method ConvertEntryLoops(parse: Parser, present: Exists, size: ImageSize,
                           entry: Json, outputDir: string, imageDir: string) returns (outcome: Outcome)
    ensures outcome == ConvertEntry(parse, present, size, entry, outputDir, imageDir)
  {
    if !entry.JObject? {
      return Raised;
    }
    var image := Get(entry.fields, "image", JString(""));
    if !Truthy(image) {
      return NoImage;
    }
    if !image.JString? {
      return Raised;
    }
    var name := image.s;
    var imagePath := if imageDir != "" then Join(imageDir, Basename(name)) else name;
    var wh := EntrySize(present, size, imagePath);
    var found := FindAssistant(Get(entry.fields, "conversations", JArray([])));
    if found.None? {
      return Raised;
    }
    var content := found.value;
    if !Truthy(content) {
      return Written(XLabelPath(outputDir, name), XLabel("4.0", [], Basename(name), wh.0, wh.1));
    }
    if !content.JString? {
      return Raised;
    }
    var items := ExtractBboxDataLoop(parse, content.s);
    var shapes := BuildOrderedShapes(items, wh.0, wh.1);
    if shapes.None? {
      return Raised;
    }
    return Written(XLabelPath(outputDir, name), XLabel("4.0", shapes.value, Basename(name), wh.0, wh.1));
  }

  /** The `for conv in conversations` search. */
  method FindAssistant(conversations: Json) returns (r: Option<Json>)
    ensures r == AssistantContent(conversations)
  {
    match Iterate(conversations)
    case Strings(n) =>
      return if n == 0 then Some(JString("")) else None;
    case NotIterable =>
      return None;
    case Elements(xs) =>
      var i := 0;
      while i < |xs|
        invariant i <= |xs|
        invariant FirstAssistant(xs) == FirstAssistant(xs[i..])
      {
        assert xs[i..][1..] == xs[i + 1..];
        var conv := xs[i];
        if !conv.JObject? {
          return None;
        }
        if IsText(Get(conv.fields, "from", JNull), "assistant") {
          return Some(Get(conv.fields, "value", JString("")));
        }
        i := i + 1;
      }
      return Some(JString(""));
  }

  /** The shapes loop: unpack, clamp, order, expand to corners. */
  /** The body of the loop for one item: unpack, clamp each coordinate,
      order the corners. */
  method OrderedItem(item: Fields, w: nat, h: nat) returns (step: Step)
    ensures step == OrderedStep(item, w, h)
  {
    if !("bbox_2d" in item && "label" in item) {
      return Skip;
    }
    var b := FourNumbers(item["bbox_2d"]);
    if b.None? {
      return Raise;
    }
    var x1, y1 := Clamp(b.value[0], w as real), Clamp(b.value[1], h as real);
    var x2, y2 := Clamp(b.value[2], w as real), Clamp(b.value[3], h as real);
    var xmin, xmax := Min(x1, x2), Max(x1, x2);
    var ymin, ymax := Min(y1, y2), Max(y1, y2);
    step := Emit(Shape(item["label"], Corners(xmin, ymin, xmax, ymax)));
  }

  method BuildOrderedShapes(items: seq<Fields>, w: nat, h: nat) returns (r: Option<seq<Shape>>)
    ensures r == OrderedShapes(items, w, h)
  {
    ghost var steps := OrderedSteps(items, w, h);
    var shapes: seq<Shape> := [];
    var i := 0;
    while i < |items|
      invariant i <= |items|
      invariant Raise !in steps[..i] && Run(steps[..i]) == Some(shapes)
    {
      PrefixSnoc(steps, i);
      var step := OrderedItem(items[i], w, h);
      if step.Raise? {
        return None;
      }
      RunSnoc(steps[..i], step);
      if step.Emit? {
        shapes := shapes + [step.shape];
      } else {
        assert shapes + [] == shapes;
      }
      i := i + 1;
    }
    assert steps[..i] == steps;
    return Some(shapes);
  }

  // ---------------------------------------------------------------------------
  // extract_bbox_data, loop by loop

  /** `isinstance(data, list)`: keep the qualifying dicts; a qualifying dict
      by itself is one candidate. */
  method CollectCandidates(data: Json) returns (r: seq<Fields>)
    ensures r == Candidates(data)
  {
    r := [];
    if data.JArray? {
      var xs := data.items;
      var i := 0;
      while i < |xs|
        invariant i <= |xs|
        invariant r == Keep(xs[..i])
      {
        assert xs[..i + 1][..i] == xs[..i];
        var item := xs[i];
        if item.JObject? && IsBoxItem(item.fields) {
          r := r + [item.fields];
        }
        i := i + 1;
      }
      assert xs[..i] == xs;
    } else if data.JObject? && IsBoxItem(data.fields) {
      r := [data.fields];
    }
  }

  /** The block loop: the first block that decodes is collected and ends the
      loop. */
  method FirstBlockLoop(parse: Parser, blocks: seq<string>) returns (r: seq<Fields>)
    ensures r == FirstBlock(parse, blocks)
  {
    r := [];
    var i := 0;
    while i < |blocks|
      invariant i <= |blocks|
      invariant forall k :: 0 <= k < i ==> parse(blocks[k]).None?
    {
      var data := parse(blocks[i]);
      if data.Some? {
        FirstParseableAt(parse, blocks, i);
        r := CollectCandidates(data.value);
        return;
      }
      i := i + 1;
    }
  }

  /** The `<answer>` loop with its nested block retry. */
  method AnswersLoop(parse: Parser, bodies: seq<string>) returns (r: seq<Fields>)
    ensures r == Answers(parse, bodies)
  {
    r := [];
    var i := 0;
    while i < |bodies|
      invariant i <= |bodies|
      invariant r == [] && Answers(parse, bodies) == Answers(parse, bodies[i..])
    {
      assert bodies[i..][0] == bodies[i] && bodies[i..][1..] == bodies[i + 1..];
      var data := parse(bodies[i]);
      if data.Some? {
        r := CollectCandidates(data.value);
        return;
      }
      r := FirstBlockLoop(parse, FencedBlocks(bodies[i], AnyWord));
      if r != [] {
        return;
      }
      i := i + 1;
    }
    assert bodies[i..] == [];
  }

  /** The `bbox2d` loop: decode the bracketed coordinates, or fall back to
      the decimal tokens. */
  method NotationLoop(parse: Parser, caps: seq<Capture>) returns (r: seq<Fields>)
    ensures r == Notation(parse, caps)
  {
    r := [];
    var i := 0;
    while i < |caps|
      invariant i <= |caps|
      invariant r + Notation(parse, caps[i..]) == Notation(parse, caps)
    {
      var found := CaptureCoords(parse, caps[i]);
      NotationStep(parse, caps, i, r);
      r := r + found;
      i := i + 1;
    }
    assert caps[i..] == [];
  }

  lemma NotationStep(parse: Parser, caps: seq<Capture>, i: nat, r: seq<Fields>)
    requires i < |caps| && r + Notation(parse, caps[i..]) == Notation(parse, caps)
    ensures (r + CaptureBox(parse, caps[i])) + Notation(parse, caps[i + 1..]) == Notation(parse, caps)
  {
    NotationAt(parse, caps, i);
    Regroup(r, CaptureBox(parse, caps[i]), Notation(parse, caps[i + 1..]));
  }

  lemma NotationAt(parse: Parser, caps: seq<Capture>, i: nat)
    requires i < |caps|
    ensures Notation(parse, caps[i..]) == CaptureBox(parse, caps[i]) + Notation(parse, caps[i + 1..])
  {
    assert caps[i..][0] == caps[i] && caps[i..][1..] == caps[i + 1..];
  }

  lemma Regroup(a: seq<Fields>, b: seq<Fields>, c: seq<Fields>)
    ensures a + (b + c) == (a + b) + c
  {
  }

  /** One `bbox2d` match: decode the bracketed coordinates, or fall back to
      the decimal tokens. */
  method CaptureCoords(parse: Parser, c: Capture) returns (found: seq<Fields>)
    ensures found == CaptureBox(parse, c)
  {
    found := [];
    var coords := parse("[" + c.coords + "]");
    if coords.Some? {
      if Len(coords.value) == Some(4) {
        found := [BoxItem(c.name, coords.value)];
      }
    } else {
      var toks := NumberTokens(c.coords);
      NumberTokensWellFormed(c.coords, 0);
      if |toks| == 4 {
        found := [BoxItem(c.name, JArray(TokenValues(toks)))];
      }
    }
  }

  /** `extract_bbox_data`: each stage runs only while nothing was found. */
  method ExtractBboxDataLoop(parse: Parser, text: string) returns (r: seq<Fields>)
    ensures r == ExtractBboxDataAsWritten(parse, text)
  {
    ghost var stages := Stages(parse, text, LiteralCaptures(text));
    r := [];
    var data := parse(text);
    if data.Some? {
      r := CollectCandidates(data.value);
    }
    assert r == stages[0];
    if r != [] {
      FirstNonEmptyPicks(stages, 0);
      return;
    }
    r := FirstBlockLoop(parse, FencedBlocks(text, AnyWord));
    if r != [] {
      FirstNonEmptyPicks(stages, 1);
      return;
    }
    r := AnswersLoop(parse, AnswerBodies(text));
    if r != [] {
      FirstNonEmptyPicks(stages, 2);
      return;
    }
    r := NotationLoop(parse, LiteralCaptures(text));
    if r != [] {
      FirstNonEmptyPicks(stages, 3);
    } else {
      FirstNonEmptyEmpty(stages);
    }
  }
}
