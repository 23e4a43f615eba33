/** The chat dialog's document bookkeeping: where its files go, the
    `chatbot_<stem>.json` merge, the VLM-R1-OVD JSONL upsert built from a
    chat history, and the records of the dataset export and import. Reading
    and writing files is left to the caller: a file's contents come in as
    parameters and the document to write goes out as the result. */
module Documents {
  import opened JsonValues
  import opened Text
  import opened Paths

  // ---------------------------------------------------------------------------
  // File names

  /** `chatbot_<stem>.json`, the file the chat history of an image is kept in. */
  function ChatbotFileName(imageFile: string): string {
    "chatbot_" + Stem(imageFile) + ".json"
  }

  /** The chat history file of an image: in the output directory when there
      is one, otherwise beside the image. */
  function ChatbotPath(filename: string, outputDir: string): string {
    Join(if outputDir != "" then outputDir else Dirname(filename), ChatbotFileName(filename))
  }

  /** The XLABEL document of an image: `<stem>.json` in the output directory. */
  function XLabelPath(outputDir: string, imageFile: string): string {
    Join(outputDir, Stem(imageFile) + ".json")
  }

  /** Both file names are the image's stem with a fixed prefix and suffix,
      and what `basename` gives back from the joined paths. */
  lemma FileNames(filename: string, outputDir: string)
    ensures Basename(ChatbotPath(filename, outputDir)) == "chatbot_" + Stem(filename) + ".json"
    ensures Basename(XLabelPath(outputDir, filename)) == Stem(filename) + ".json"
  {
    ChatbotBasename(filename, outputDir);
    XLabelBasename(outputDir, filename);
  }

  lemma ChatbotBasename(filename: string, outputDir: string)
    ensures Basename(ChatbotPath(filename, outputDir)) == "chatbot_" + Stem(filename) + ".json"
  {
    var name := ChatbotFileName(filename);
    StemShape(filename);
    NoSlashAround("chatbot_", Stem(filename), ".json");
    BasenameOfJoin(if outputDir != "" then outputDir else Dirname(filename), name);
  }

  lemma XLabelBasename(outputDir: string, filename: string)
    ensures Basename(XLabelPath(outputDir, filename)) == Stem(filename) + ".json"
  {
    var name := Stem(filename) + ".json";
    StemShape(filename);
    assert '/' !in ".json";
    BasenameOfJoin(outputDir, name);
  }

  lemma NoSlashAround(before: string, name: string, after: string)
    requires '/' !in before && '/' !in name && '/' !in after
    ensures '/' !in before + name + after
  {
  }

  /** Saving the chat history never touches the image's XLABEL document: for
      the same image the two paths differ. */
  lemma ChatbotFileIsSeparate(filename: string, outputDir: string)
    ensures ChatbotPath(filename, outputDir) != XLabelPath(outputDir, filename)
  {
    FileNames(filename, outputDir);
    assert |Basename(ChatbotPath(filename, outputDir))| == |Basename(XLabelPath(outputDir, filename))| + 8;
  }

  // ---------------------------------------------------------------------------
  // `save_chat_history_with_prefix`

  /** What an existing chat history file holds: nothing (no file), something
      that does not decode, or a decoded value. */
  datatype FileState = Missing | Unreadable | Present(content: Json)

  /** The document written to the chat history file, `None` when the save
      fails (an unreadable file, or one whose value is not a dict). The
      history written is the parent's `chat_history`, `[]` when it has none. */
  function SaveChatHistory(file: FileState, otherData: Fields): (r: Option<Fields>)
    ensures r.Some? <==> file.Missing? || (file.Present? && file.content.JObject?)
    ensures r.Some? ==> "chat_history" in r.value
                        && r.value["chat_history"] == Get(otherData, "chat_history", JArray([]))
    ensures r.Some? && file.Present? ==>
              forall k :: k in file.content.fields && k != "chat_history" ==>
                k in r.value && r.value[k] == file.content.fields[k]
    ensures r.Some? ==> forall k :: k in r.value && k != "chat_history" ==>
                          file.Present? && k in file.content.fields
    ensures file.Missing? ==> r.Some? && r.value.Keys == {"chat_history"}
  {
    var history := Get(otherData, "chat_history", JArray([]));
    match file
    case Missing => Some(map["chat_history" := history])
    case Unreadable => None
    case Present(JObject(m)) => Some(m["chat_history" := history])
    case Present(_) => None
  }

  /** Saving again what was just saved changes nothing. */
  lemma SaveIdempotent(file: FileState, otherData: Fields)
    requires SaveChatHistory(file, otherData).Some?
    ensures var saved := SaveChatHistory(file, otherData).value;
            SaveChatHistory(Present(JObject(saved)), otherData) == Some(saved)
  {
    var saved := SaveChatHistory(file, otherData).value;
    assert saved["chat_history" := Get(otherData, "chat_history", JArray([]))] == saved;
  }

  // ---------------------------------------------------------------------------
  // `generate_vlm_r1_ovd_from_chat_history`

  /** The speaker name of the VLM-R1-OVD format: `user` becomes `human`, any
      other role is kept. */
  function FromRole(role: Json): (r: Json)
    ensures r == JString("human") <==> role == JString("user") || role == JString("human")
  {
    if role == JString("user") then JString("human") else role
  }

  /** One chat message as a VLM-R1-OVD conversation turn. */
  function Turn(msg: Fields): Json {
    JObject(map["from" := FromRole(Get(msg, "role", JString(""))), "value" := Get(msg, "content", JString(""))])
  }

  /** The turns of a whole history, in order. */
  function Turns(history: seq<Fields>): (r: seq<Json>)
    ensures |r| == |history|
    ensures forall k :: 0 <= k < |history| ==> r[k] == Turn(history[k])
  {
    if history == [] then [] else [Turn(history[0])] + Turns(history[1..])
  }

  /** The entry recorded for an image. */
  function HistoryEntry(imageName: string, turns: seq<Json>): Json {
    JObject(map["id" := JNum(1.0), "image" := JString(imageName), "conversations" := JArray(turns)])
  }

  /** The entries of an existing JSONL file: blank lines are skipped and the
      first line that does not decode ends the reading, keeping what came
      before it. */
  function ReadEntries(parse: Parser, lines: seq<string>): (r: seq<Json>)
    ensures |r| <= |lines|
  {
    if lines == [] then []
    else if Strip(lines[0]) == "" then ReadEntries(parse, lines[1..])
    else match parse(Strip(lines[0]))
      case None => []
      case Some(j) => [j] + ReadEntries(parse, lines[1..])
  }

  /** The lines written for a list of entries, one `json.dumps` each. */
  function WriteLines(dump: Json -> string, entries: seq<Json>): (r: seq<string>)
    ensures |r| == |entries|
    ensures forall k :: 0 <= k < |entries| ==> r[k] == dump(entries[k]) + "\n"
  {
    if entries == [] then [] else [dump(entries[0]) + "\n"] + WriteLines(dump, entries[1..])
  }

  /** What is written is read back: whenever each written line decodes to its
      entry, reading the file gives the entries written. */
  lemma {:induction false} ReadWhatWasWritten(parse: Parser, dump: Json -> string, entries: seq<Json>)
    requires forall k :: 0 <= k < |entries| ==>
               Strip(dump(entries[k]) + "\n") != "" && parse(Strip(dump(entries[k]) + "\n")) == Some(entries[k])
    ensures ReadEntries(parse, WriteLines(dump, entries)) == entries
  {
    if entries != [] {
      var lines := WriteLines(dump, entries);
      assert lines[1..] == WriteLines(dump, entries[1..]);
      ReadWhatWasWritten(parse, dump, entries[1..]);
    }
  }

  /** The entry for `imageName` is the first one whose `image` is that name;
      the entries before it are dicts that are not for it. */
  predicate IsFor(entry: Json, imageName: string) {
    entry.JObject? && Get(entry.fields, "image", JNull) == JString(imageName)
  }

  /** The first entry for the image is replaced, or the entry appended when
      there is none; `None` when an entry met before a match is not a dict
      (its `get` raises). */
  function Upsert(entries: seq<Json>, entry: Json, imageName: string): (r: Option<seq<Json>>)
    ensures r.Some? ==> |r.value| == |entries| || r.value == entries + [entry]
  {
    if entries == [] then Some([entry])
    else if !entries[0].JObject? then None
    else if IsFor(entries[0], imageName) then Some([entry] + entries[1..])
    else match Upsert(entries[1..], entry, imageName)
      case None => None
      case Some(rest) => Some([entries[0]] + rest)
  }

  /** An existing entry for the image is replaced in place, the first one
      only; every other entry keeps its place. */
  lemma {:induction false} UpsertReplacesFirst(entries: seq<Json>, entry: Json, imageName: string, i: nat)
    requires i < |entries| && IsFor(entries[i], imageName)
    requires forall k :: 0 <= k < i ==> entries[k].JObject? && !IsFor(entries[k], imageName)
    ensures Upsert(entries, entry, imageName) == Some(entries[i := entry])
  {
    if i > 0 {
      UpsertReplacesFirst(entries[1..], entry, imageName, i - 1);
      assert entries[i := entry] == [entries[0]] + entries[1..][i - 1 := entry];
    } else {
      assert entries[0 := entry] == [entry] + entries[1..];
    }
  }

  /** Without an entry for the image, the new entry goes at the end. */
  lemma {:induction false} UpsertAppends(entries: seq<Json>, entry: Json, imageName: string)
    requires forall k :: 0 <= k < |entries| ==> entries[k].JObject? && !IsFor(entries[k], imageName)
    ensures Upsert(entries, entry, imageName) == Some(entries + [entry])
  {
    if entries != [] {
      UpsertAppends(entries[1..], entry, imageName);
      assert entries + [entry] == [entries[0]] + (entries[1..] + [entry]);
    }
  }

  /** The upsert fails exactly when an entry that is not a dict comes before
      any entry for the image. */
  lemma {:induction false} UpsertFails(entries: seq<Json>, entry: Json, imageName: string)
    ensures Upsert(entries, entry, imageName).None? <==>
            exists i :: 0 <= i < |entries| && !entries[i].JObject? && forall k :: 0 <= k < i ==> !IsFor(entries[k], imageName)
  {
    if entries != [] {
      UpsertFails(entries[1..], entry, imageName);
      if Upsert(entries, entry, imageName).None? && entries[0].JObject? {
        var i :| 0 <= i < |entries[1..]| && !entries[1..][i].JObject? && forall k :: 0 <= k < i ==> !IsFor(entries[1..][k], imageName);
        assert !entries[i + 1].JObject?;
        assert forall k :: 0 <= k < i + 1 ==> !IsFor(entries[k], imageName) by {
          forall k | 0 <= k < i + 1 ensures !IsFor(entries[k], imageName) {
            if k > 0 { assert entries[k] == entries[1..][k - 1]; }
          }
        }
      }
      if !Upsert(entries, entry, imageName).None? {
        forall i | 0 <= i < |entries| && !entries[i].JObject?
          ensures exists k :: 0 <= k < i && IsFor(entries[k], imageName)
        {
          if !IsFor(entries[0], imageName) {
            assert i > 0 && !entries[1..][i - 1].JObject?;
            var k :| 0 <= k < i - 1 && IsFor(entries[1..][k], imageName);
            assert IsFor(entries[k + 1], imageName);
          }
        }
      }
    }
  }

  /** Saving the same image's entry twice leaves the file as saving it once:
      the second upsert finds the entry the first one put in. */
  lemma UpsertTwice(entries: seq<Json>, turns: seq<Json>, imageName: string)
    requires Upsert(entries, HistoryEntry(imageName, turns), imageName).Some?
    ensures var entry := HistoryEntry(imageName, turns);
            var once := Upsert(entries, entry, imageName).value;
            Upsert(once, entry, imageName) == Some(once)
  {
    var entry := HistoryEntry(imageName, turns);
    assert IsFor(entry, imageName);
    var once := Upsert(entries, entry, imageName).value;
    var i := FirstFor(entries, imageName);
    if i < |entries| {
      UpsertReplacesFirst(entries, entry, imageName, i);
      UpsertReplacesFirst(once, entry, imageName, i);
      assert once[i := entry] == once;
    } else {
      UpsertAppends(entries, entry, imageName);
      UpsertReplacesFirst(once, entry, imageName, i);
      assert once[i := entry] == once;
    }
  }

  /** Index of the first entry for the image, given the upsert succeeds;
      `|entries|` when there is none. */
  function FirstFor(entries: seq<Json>, imageName: string): (i: nat)
    requires exists e :: Upsert(entries, e, imageName).Some?
    ensures i <= |entries|
    ensures forall k :: 0 <= k < i ==> entries[k].JObject? && !IsFor(entries[k], imageName)
    ensures i < |entries| ==> IsFor(entries[i], imageName)
  {
    if entries == [] then 0
    else if IsFor(entries[0], imageName) then 0
    else
      var e :| Upsert(entries, e, imageName).Some?;
      assert Upsert(entries[1..], e, imageName).Some?;
      1 + FirstFor(entries[1..], imageName)
  }

  /** `existing_entries[i] = entry` or `append(entry)`, as the loop does it. */
  method UpsertEntry(entries: seq<Json>, entry: Json, imageName: string) returns (r: Option<seq<Json>>)
    ensures r == Upsert(entries, entry, imageName)
  {
    var existing := entries;
    var i := 0;
    while i < |existing|
      invariant i <= |existing| && existing == entries
      invariant forall k :: 0 <= k < i ==> entries[k].JObject? && !IsFor(entries[k], imageName)
    {
      if !existing[i].JObject? {
        UpsertFails(entries, entry, imageName);
        return None;
      }
      if Get(existing[i].fields, "image", JNull) == JString(imageName) {
        UpsertReplacesFirst(entries, entry, imageName, i);
        existing := existing[i := entry];
        return Some(existing);
      }
      i := i + 1;
    }
    UpsertAppends(entries, entry, imageName);
    existing := existing + [entry];
    return Some(existing);
  }

  /** What generating the JSONL file does: nothing without a history, a
      failure (an exception, caught), or the file written. */
  datatype Generated = NoHistory | Failed | Saved(path: string, entries: seq<Json>)

  /** `generate_vlm_r1_ovd_from_chat_history`. `existing` is the JSONL file's
      lines, `None` when it does not exist or cannot be opened. */
  function GenerateFromHistory(parse: Parser, filename: string, outputDir: string,
                               labelFileData: Fields, existing: Option<seq<string>>): Generated
  {
    var dir := if outputDir != "" then outputDir else Dirname(filename);
    var history := Get(labelFileData, "chat_history", JArray([]));
    if !Truthy(history) then NoHistory
    else
      var folder := if dir != "" then Basename(dir) else "default";
      var path := Join(dir, "VLM_R1_OVD_" + folder + ".jsonl");
      match DictElements(history)
      case None => Failed
      case Some(msgs) =>
        var entry := HistoryEntry(Basename(filename), Turns(msgs));
        var entries := match existing case Some(lines) => ReadEntries(parse, lines) case None => [];
        match Upsert(entries, entry, Basename(filename))
        case None => Failed
        case Some(updated) => Saved(path, updated)
  }

  /** A saved file holds the image's entry exactly once where it was, or at
      the end, and every turn maps the message's role and keeps its content. */
  lemma GeneratedEntry(parse: Parser, filename: string, outputDir: string, labelFileData: Fields, lines: seq<string>)
    requires "chat_history" in labelFileData
    requires GenerateFromHistory(parse, filename, outputDir, labelFileData, Some(lines)).Saved?
    ensures var g := GenerateFromHistory(parse, filename, outputDir, labelFileData, Some(lines));
            var msgs := DictElements(labelFileData["chat_history"]).value;
            var old_ := ReadEntries(parse, lines);
            var i := FirstFor(old_, Basename(filename));
            && (i < |old_| ==> g.entries == old_[i := HistoryEntry(Basename(filename), Turns(msgs))])
            && (i == |old_| ==> g.entries == old_ + [HistoryEntry(Basename(filename), Turns(msgs))])
  {
    var msgs := DictElements(labelFileData["chat_history"]).value;
    var entry := HistoryEntry(Basename(filename), Turns(msgs));
    var old_ := ReadEntries(parse, lines);
    assert Upsert(old_, entry, Basename(filename)).Some?;
    var i := FirstFor(old_, Basename(filename));
    if i < |old_| {
      UpsertReplacesFirst(old_, entry, Basename(filename), i);
    } else {
      UpsertAppends(old_, entry, Basename(filename));
    }
  }

  // ---------------------------------------------------------------------------
  // Dataset export and import records

  /** The export record of one chat history file: its messages (role and
      content) and the image, once, when any message carried one. `None`
      when the file is skipped, including when processing it raises. */
  function ExportRecord(data: Json): (r: Option<Json>)
  {
    if !data.JObject? then None
    else
      var history := Get(data.fields, "chat_history", JNull);
      var image := Get(data.fields, "imagePath", JNull);
      if !Truthy(history) || !Truthy(image) || !image.JString? then None
      else match DictElements(history)
        case None => None
        case Some(msgs) =>
          if msgs == [] then None
          else Some(JObject(map["messages" := JArray(ExportMessages(msgs)),
                                "images" := JArray(ExportImages(msgs, image.s))]))
  }

  function ExportMessages(msgs: seq<Fields>): (r: seq<Json>)
    ensures |r| == |msgs|
    ensures forall k :: 0 <= k < |msgs| ==>
              r[k] == JObject(map["role" := Get(msgs[k], "role", JNull), "content" := Get(msgs[k], "content", JNull)])
  {
    if msgs == [] then []
    else [JObject(map["role" := Get(msgs[0], "role", JNull), "content" := Get(msgs[0], "content", JNull)])]
         + ExportMessages(msgs[1..])
  }

  /** `images/<name>` once if any message carries a truthy `image`. */
  function ExportImages(msgs: seq<Fields>, imageName: string): (r: seq<Json>)
    ensures r == [] || r == [JString("images/" + imageName)]
    ensures r != [] <==> exists k :: 0 <= k < |msgs| && Truthy(Get(msgs[k], "image", JNull))
  {
    if exists k :: 0 <= k < |msgs| && Truthy(Get(msgs[k], "image", JNull))
    then [JString("images/" + imageName)] else []
  }

  /** Whether `"<image>" in content` holds; `None` where it raises. */
  function ImageTagIn(content: Json): Option<bool> {
    match content
    case JString(s) => Some(Contains(s, "<image>"))
    case JArray(xs) => Some(JString("<image>") in xs)
    case JObject(m) => Some("<image>" in m)
    case _ => None
  }

  /** The chat history the import rebuilds from a record's messages; a user
      message that mentions `<image>` is bound to the local image. `None`
      when building it raises. */
  function ImportHistory(messages: seq<Fields>, localImagePath: string): (r: Option<seq<Json>>)
    ensures r.Some? ==> |r.value| == |messages|
  {
    if messages == [] then Some([])
    else
      var role := Get(messages[0], "role", JString(""));
      var content := Get(messages[0], "content", JString(""));
      var tagged := if role == JString("user") then ImageTagIn(content) else Some(false);
      match (tagged, ImportHistory(messages[1..], localImagePath))
      case (Some(t), Some(rest)) =>
        var image := if t then JString(localImagePath) else JNull;
        Some([JObject(map["role" := role, "content" := content, "image" := image])] + rest)
      case _ => None
  }

  /** A message with a string role and a string content. */
  predicate PlainMessage(msg: Fields) {
    "role" in msg && msg["role"].JString? && "content" in msg && msg["content"].JString?
  }

  /** A plain message as the import rebuilds it. */
  function Reimported(msg: Fields, localImagePath: string): Json
    requires PlainMessage(msg)
  {
    var image := if msg["role"] == JString("user") && Contains(msg["content"].s, "<image>")
                 then JString(localImagePath) else JNull;
    JObject(map["role" := msg["role"], "content" := msg["content"], "image" := image])
  }

  /** Export then import gives back every message's role and content in
      order, with the image bound exactly to the user messages that mention
      `<image>`. */
  lemma {:induction false} ExportImportRoundTrip(msgs: seq<Fields>, localImagePath: string)
    requires forall k :: 0 <= k < |msgs| ==> PlainMessage(msgs[k])
    ensures var exported := DictElements(JArray(ExportMessages(msgs))).value;
            var imported := ImportHistory(exported, localImagePath);
            && imported.Some? && |imported.value| == |msgs|
            && forall k :: 0 <= k < |msgs| ==>
                 imported.value[k] == Reimported(msgs[k], localImagePath)
  {
    var exported := DictElements(JArray(ExportMessages(msgs))).value;
    assert forall k :: 0 <= k < |msgs| ==> exported[k] == map["role" := msgs[k]["role"], "content" := msgs[k]["content"]];
    ImportPlain(exported, localImagePath);
  }

  lemma {:induction false} ImportPlain(exported: seq<Fields>, localImagePath: string)
    requires forall k :: 0 <= k < |exported| ==> PlainMessage(exported[k])
    ensures var imported := ImportHistory(exported, localImagePath);
            && imported.Some?
            && forall k :: 0 <= k < |exported| ==>
                 imported.value[k] == Reimported(exported[k], localImagePath)
  {
    if exported != [] {
      ImportPlain(exported[1..], localImagePath);
      var imported := ImportHistory(exported, localImagePath).value;
      forall k | 0 <= k < |exported|
        ensures imported[k] == Reimported(exported[k], localImagePath)
      {
        if k > 0 {
          assert exported[k] == exported[1..][k - 1];
        }
      }
    }
  }
}
