# VLM answers to rectangle annotations — a verified model

This project models the part of X-AnyLabeling that turns a vision-language
model's free-text answer into rectangle annotations, with the bookkeeping
around it:

- **Box extraction.** `_extract_bbox_data` in the chat dialog and
  `extract_bbox_data` in the conversion script are the same four-stage
  fallback chain: the whole answer as JSON, then fenced code blocks, then
  `<answer>` bodies with a nested code-block retry, then the `bbox2d`
  notation. The script runs the `bbox2d` pattern as it is written (see
  "## Findings"); the corrected chain is modelled beside it. Qwen-VL's
  `extract_json_from_response` and `postprocess` are a second extractor
  with flexible field names.
- **Box to XLABEL shapes.** There are three variants, and each is kept as
  written:
  - the dialog's entry conversion scales normalised boxes, then clamps;
  - the script clamps, then orders the corners;
  - the reply path clamps only.
- **Documents.** These cover:
  - the `chatbot_<stem>.json` merge that overwrites only `chat_history`;
  - the VLM-R1-OVD JSONL upsert by image, with its role mapping;
  - output file names;
  - the dataset export and import records.
- **Conversation state.** The chat dialog's `chat_history`, `streaming` and
  loading bubble change under `add_message`, `start_generation`,
  `update_output`, `on_stream_finished`, `handle_error`,
  `clear_messages_after`, `regenerate_response`,
  `resubmit_edited_message`, `clear_conversation`, `load_initial_data` and
  `navigate_image`. They are modelled as transition functions, plus a
  `ChatbotDialog` class whose methods update its fields and are proved to
  make those transitions.
- **Qwen-VL settings and prompt choice.** The `QwenVL` class keeps its task
  settings, which its setters update. The model proves how
  `predict_shapes` chooses the prompt it sends.

## Modelling choices

- **JSON and decoding.**
  - Decoded JSON is the datatype `JsonValues.Json`, with exact `real`
    numbers.
  - `json.loads` is a parameter `Parser = string -> Option<Json>`, where
    `None` is a `JSONDecodeError`.
  - `json.dumps` is a parameter too.
- **Python exceptions.** An exception that a caller catches becomes a
  `None`, `Raised` or `Failed` outcome, or the `raised` flag of an
  `Emission`. Qwen-VL's `postprocess` returns the shapes it appended before
  the exception.
- **Regular expressions.** Each pattern is written out as the scan
  Python's `re` performs, in module `Scanners`: leftmost match, greedy or
  lazy quantifiers, and scanning resumed after each match.
- **Outside effects.** Images, files, the clock, the network and the model
  itself are parameters:
  - `ImageSize`, `Exists`, the existing file's lines, and a `generate`
    function for inference.
  - A Qt message widget is only counted, in `widgets`.

## Model

| member | source | states |
|---|---|---|
| JsonValues.DictElements | anylabeling/views/labeling/widgets/chatbot_dialog.py:1674-1676 | iterating a value with `.get` on each element: a list of dicts runs to the end, giving each element's fields in order; `len` agrees with the element count |
| JsonValues.Values | convert_vlm_r1_ovd_to_xlabel.py:195-196 | the numeric values of a list of numbers, one per element, in order |
| Text.Strip | convert_vlm_r1_ovd_to_xlabel.py:255-260 | `str.strip()`: the result is the input with leading and trailing whitespace removed and no whitespace at either end |
| Text.ReplaceAbsent | anylabeling/services/auto_labeling/qwen_vl.py:269-270 | `str.replace`: a string without the pattern comes back unchanged |
| Text.ReplaceFirst | anylabeling/services/auto_labeling/qwen_vl.py:269-270 | `str.replace` copies the text before the first occurrence, puts the replacement in place of that occurrence, and goes on replacing in the rest |
| Paths.BasenameOfJoin | convert_vlm_r1_ovd_to_xlabel.py:153-156 | `basename(join(dir, name))` is `name` for a name without a slash |
| Paths.StemShape | convert_vlm_r1_ovd_to_xlabel.py:230 | `splitext(basename(p))[0]` is a prefix of the base name and contains no slash |
| Scanners.FencedBlocksHaveNoFence | convert_vlm_r1_ovd_to_xlabel.py:61-62 | no captured code-block body contains the closing fence: the lazy `(.*?)` stops at the first closing fence |
| Scanners.FencedRoundTrip | convert_vlm_r1_ovd_to_xlabel.py:61-62 | a text whose only backticks are the two fences of one ```` ```json ```` block, written with a newline after the tag and before the closing fence, yields exactly the block's body under either fence pattern, when the body is non-empty, has no backtick and no whitespace at either end |
| Scanners.AnswerBodiesHaveNoClose | convert_vlm_r1_ovd_to_xlabel.py:78-79 | no `<answer>` body contains `</answer>`: the lazy match stops at the first closing tag |
| Scanners.NumberTokensWellFormed | convert_vlm_r1_ovd_to_xlabel.py:124 | every `\d+(?:\.\d+)?` token is digits, optionally followed by a point and more digits |
| Scanners.LiteralCoordsEmpty | convert_vlm_r1_ovd_to_xlabel.py:111-112 | under the pattern as written, every coordinate capture is the empty string |
| Scanners.IntendedRoundTrip | convert_vlm_r1_ovd_to_xlabel.py:111-112 | the intended pattern (escaped parentheses) captures the label and the coordinate text of `bbox2d <label> (<coords>)` |
| Scanners.NotationMatch | convert_vlm_r1_ovd_to_xlabel.py:111 | the intended pattern matches a whole `bbox2d <label> (<coords>)` text at its start, capturing the label and the coordinate text and ending at the text's end |
| Scanners.GreedySpanExists | anylabeling/services/auto_labeling/qwen_vl.py:133-142 | the greedy `\{.*\}` / `\[.*\]` search succeeds exactly when an opening character comes before a closing one |
| Extraction.Keep | convert_vlm_r1_ovd_to_xlabel.py:50-53 | only dicts with both `bbox_2d` and `label` are kept, and never more items than the list holds |
| Extraction.KeepAppend | convert_vlm_r1_ovd_to_xlabel.py:51-53 | filtering keeps source order: filtering a concatenation concatenates the filtered parts |
| Extraction.KeepMembership | convert_vlm_r1_ovd_to_xlabel.py:51-53 | a dict is kept if and only if it is in the list and has both keys |
| Extraction.FirstParseable | convert_vlm_r1_ovd_to_xlabel.py:63-74 | the index of the first text that decodes: every text before it fails to decode, and `None` means none decodes |
| Extraction.FirstParseableAt | convert_vlm_r1_ovd_to_xlabel.py:63-74 | the first decodable text is found at the index where it stands |
| Extraction.FirstNonEmptyPicks | anylabeling/views/labeling/widgets/chatbot_dialog.py:2041-2093 | a stage's boxes are returned exactly when every earlier stage found none |
| Extraction.FirstNonEmptyEmpty | anylabeling/views/labeling/widgets/chatbot_dialog.py:2041-2093 | the chain finds nothing if and only if every stage finds nothing |
| Extraction.ExtractStageOrder | convert_vlm_r1_ovd_to_xlabel.py:47-130 | in the chain as written, the stage order is whole text, blocks, answers, notation; stage k's boxes are the result when stages before k found none |
| Extraction.ExtractEmpty | convert_vlm_r1_ovd_to_xlabel.py:47-132 | the chain as written returns `[]` exactly when all four of its stages do |
| Extraction.ExtractBboxData | convert_vlm_r1_ovd_to_xlabel.py:110-130 | the corrected definition of the "## Findings" row: the same four-stage chain with the `bbox2d` pattern repaired; every returned item is a dict holding both `bbox_2d` and `label` (the extractor never raises: it is total) |
| Extraction.ExtractBboxDataAsWritten | convert_vlm_r1_ovd_to_xlabel.py:35-132 | the chain as the script and the dialog (`_extract_bbox_data`, anylabeling/views/labeling/widgets/chatbot_dialog.py:2018-2115) run it, with the `bbox2d` pattern as written: it returns only items with both keys and never raises |
| Extraction.FirstBlockDecides | convert_vlm_r1_ovd_to_xlabel.py:63-74 | in the block stage the first block that decodes ends the scan, even if it yields no box |
| Extraction.AnswersFirstParsedBody | convert_vlm_r1_ovd_to_xlabel.py:80-107 | in the answer stage the first body that decodes ends the scan, when the retries of earlier bodies found nothing |
| Extraction.WholeDict | convert_vlm_r1_ovd_to_xlabel.py:48-55 | an answer that decodes to one qualifying dict yields exactly that dict, in the chain as written and in the corrected chain |
| Extraction.FencedAnswer | convert_vlm_r1_ovd_to_xlabel.py:59-74 | when the whole answer does not decode and its only backticks are the fences of one ```` ```json ```` block, the result of the chain as written (and of the corrected chain) is the box candidates of that block's decoded JSON, when it has any |
| Extraction.NoJsonStages | convert_vlm_r1_ovd_to_xlabel.py:47-107 | without a decodable whole text, a backtick or a `<`, the three JSON stages find nothing |
| Extraction.NothingFound | convert_vlm_r1_ovd_to_xlabel.py:47-132 | prose with no JSON, no fence, no tag and no `bbox2d` yields no box, in the chain as written and in the corrected chain |
| Extraction.LiteralNotationEmpty | convert_vlm_r1_ovd_to_xlabel.py:110-130 | under the pattern as written, the notation stage never adds a box |
| Extraction.AsWrittenVersusIntended | convert_vlm_r1_ovd_to_xlabel.py:110-130 | the chain as written agrees with the corrected one whenever a JSON stage finds something, and otherwise returns `[]` |
| Extraction.NotationCounterexample | convert_vlm_r1_ovd_to_xlabel.py:111 | on `bbox2d cat (10,20,30,40)` the chain as written finds nothing while the corrected one finds the box `cat` |
| Extraction.NotationFound | anylabeling/views/labeling/widgets/chatbot_dialog.py:2092-2112 | through the whole corrected chain, `bbox2d <label> (<four numbers>)` yields exactly that labelled box |
| Extraction.CaptureBox | convert_vlm_r1_ovd_to_xlabel.py:113-130 | one capture adds at most one box: when `[coords]` decodes, exactly when it has four elements, and then the box is that list under the capture's label; otherwise exactly when there are four decimal tokens, and then the box is their values in order under the capture's label |
| Extraction.TokenValues | convert_vlm_r1_ovd_to_xlabel.py:126 | `[float(c) for c in tokens]` has one number per token, the k-th being the k-th token's decimal value |
| Shapes.Clamp | convert_vlm_r1_ovd_to_xlabel.py:198-201 | `max(0, min(v, hi))` lies in `[0, hi]`, keeps a value already inside, and maps values below or above to the ends |
| Shapes.Corners | convert_vlm_r1_ovd_to_xlabel.py:209-217 | four points going round an axis-aligned rectangle, first `(x1, y1)`, third `(x2, y2)` |
| Shapes.ClampedCorners | anylabeling/views/labeling/widgets/chatbot_dialog.py:1446-1462 | the corners of a clamped box form a rectangle inside the image |
| Shapes.FourNumbers | convert_vlm_r1_ovd_to_xlabel.py:195-196 | the box unpacks to four values exactly when it is a list of four numbers |
| Shapes.Run | convert_vlm_r1_ovd_to_xlabel.py:193-227 | a shapes loop fails exactly when some item raises, and otherwise emits at most one shape per item |
| Shapes.RunAppend | convert_vlm_r1_ovd_to_xlabel.py:193-227 | emitted shapes keep the order of the items they come from |
| Shapes.RunEmits | convert_vlm_r1_ovd_to_xlabel.py:193-227 | a shape is in the result exactly when some item emitted it |
| Shapes.EffectiveSize | anylabeling/views/labeling/widgets/chatbot_dialog.py:1795-1798 | a zero width or height is replaced by 1024 x 538 |
| Shapes.Scale | anylabeling/views/labeling/widgets/chatbot_dialog.py:1811-1815 | a normalised coordinate times the image dimension stays within that dimension |
| Shapes.ScaledShapesInImage | anylabeling/views/labeling/widgets/chatbot_dialog.py:1802-1845 | every shape the dialog's entry conversion emits is a rectangle inside the image |
| Shapes.NormalizedBoxScales | anylabeling/views/labeling/widgets/chatbot_dialog.py:1810-1816 | a box with all four coordinates in [0, 1], `[0,0,1,1]` included, is scaled by width and height |
| Shapes.ToPixelsNormalized | anylabeling/views/labeling/widgets/chatbot_dialog.py:1959-1966 | the pixel box of a normalised box is each coordinate scaled by its own dimension |
| Shapes.ScaledStepOfBox | anylabeling/views/labeling/widgets/chatbot_dialog.py:1802-1845 | an item with a label and four numbers emits the clamped pixel box, unordered |
| Shapes.HalfBoxExample | anylabeling/views/labeling/widgets/chatbot_dialog.py:1810-1816 | `[0.5, 0.5, 1, 1]` on 1024 x 538 is the box from (512, 269) to (1024, 538) |
| Shapes.PixelBoxKept | anylabeling/views/labeling/widgets/chatbot_dialog.py:1810-1824 | a pixel box inside the image is kept as it is |
| Shapes.OrderedShapesOrdered | convert_vlm_r1_ovd_to_xlabel.py:195-205 | every shape of the script satisfies 0 <= xmin <= xmax <= width and 0 <= ymin <= ymax <= height |
| Shapes.OrderedStepSymmetric | convert_vlm_r1_ovd_to_xlabel.py:203-205 | the script's shape does not depend on which corner the box names first |
| Shapes.ClampedShapesInImage | anylabeling/views/labeling/widgets/chatbot_dialog.py:1442-1470 | every shape of the reply path is a rectangle inside the image |
| Shapes.ClampedKeepsOrder | anylabeling/views/labeling/widgets/chatbot_dialog.py:1444-1462 | the reply path keeps a reversed box reversed, where the script puts the same box in order |
| Shapes.ReplyShapesInImage | anylabeling/views/labeling/widgets/chatbot_dialog.py:1396-1470 | the reply path turns a reply into shapes only through a fenced block that decodes to a truthy value, and every shape is a rectangle inside the image |
| Shapes.UnfencedReplyWritesNothing | anylabeling/views/labeling/widgets/chatbot_dialog.py:1396-1405 | a reply without a fenced block writes nothing |
| Shapes.AnswerShapesInImage | anylabeling/views/labeling/widgets/chatbot_dialog.py:1777-1845 | the dialog's entry conversion gives shapes only for a non-empty answer in which the extractor finds boxes, each a rectangle inside the image's effective size |
| Documents.FileNames | anylabeling/views/labeling/widgets/chatbot_dialog.py:1568-1580 | the chat file is `chatbot_<stem>.json` and the document `<stem>.json`, as `basename` reads them back |
| Documents.ChatbotFileIsSeparate | anylabeling/views/labeling/widgets/chatbot_dialog.py:1571-1580 | for the same image, the chat history file and the XLABEL document are different paths |
| Documents.SaveChatHistory | anylabeling/views/labeling/widgets/chatbot_dialog.py:1565-1602 | the save succeeds iff the file is missing or holds a dict; it sets `chat_history` from the parent (default `[]`), keeps every other key and adds none |
| Documents.SaveIdempotent | anylabeling/views/labeling/widgets/chatbot_dialog.py:1583-1596 | saving again over what was just saved changes nothing |
| Documents.FromRole | anylabeling/views/labeling/widgets/chatbot_dialog.py:1678-1684 | the speaker is `human` exactly for the roles `user` and `human`; any other role is kept |
| Documents.Turns | anylabeling/views/labeling/widgets/chatbot_dialog.py:1673-1690 | one turn per message, in order |
| Documents.WriteLines | anylabeling/views/labeling/widgets/chatbot_dialog.py:1724-1726 | one line per entry, the dumped entry followed by a newline |
| Documents.ReadWhatWasWritten | anylabeling/views/labeling/widgets/chatbot_dialog.py:1699-1726 | reading back the written lines gives the written entries |
| Documents.Upsert | anylabeling/views/labeling/widgets/chatbot_dialog.py:1710-1721 | the upsert keeps the length (replace) or appends the entry at the end |
| Documents.UpsertReplacesFirst | anylabeling/views/labeling/widgets/chatbot_dialog.py:1710-1717 | the first entry for the image is replaced in place, and every other entry keeps its place |
| Documents.UpsertAppends | anylabeling/views/labeling/widgets/chatbot_dialog.py:1719-1721 | without an entry for the image, the new entry goes at the end |
| Documents.UpsertFails | anylabeling/views/labeling/widgets/chatbot_dialog.py:1710-1715 | the upsert raises exactly when a non-dict entry comes before any entry for the image |
| Documents.UpsertTwice | anylabeling/views/labeling/widgets/chatbot_dialog.py:1708-1721 | upserting the same entry twice leaves the file as upserting it once |
| Documents.FirstFor | anylabeling/views/labeling/widgets/chatbot_dialog.py:1710-1717 | the position of the first entry for the image, with only other dicts before it |
| Documents.UpsertEntry | anylabeling/views/labeling/widgets/chatbot_dialog.py:1710-1721 | the loop with `existing_entries[i] = entry` / `append` computes the upsert |
| Documents.GeneratedEntry | anylabeling/views/labeling/widgets/chatbot_dialog.py:1650-1734 | the written JSONL holds the image's entry once, where it was or at the end, and every turn maps the role and keeps the content |
| Documents.ExportMessages | anylabeling/views/labeling/widgets/chatbot_dialog.py:2375-2381 | every message is exported as its role and content, in order |
| Documents.ExportImages | anylabeling/views/labeling/widgets/chatbot_dialog.py:2383-2387 | the record lists `images/<name>` once exactly when some message has a truthy `image` |
| Documents.ImportHistory | anylabeling/views/labeling/widgets/chatbot_dialog.py:2525-2540 | one history entry per imported message |
| Documents.ExportImportRoundTrip | anylabeling/views/labeling/widgets/chatbot_dialog.py:2374-2540 | export then import gives back every role and content in order, with the image bound exactly to user messages mentioning `<image>` |
| Documents.ImportPlain | anylabeling/views/labeling/widgets/chatbot_dialog.py:2525-2540 | importing string messages never raises and rebuilds each one |
| ConvertScript.GetImageSize | convert_vlm_r1_ovd_to_xlabel.py:17-32 | the image's size, or 1024 x 538 when it cannot be opened |
| ConvertScript.EntrySize | convert_vlm_r1_ovd_to_xlabel.py:159 | a path that does not exist gets 1024 x 538 |
| ConvertScript.FirstAssistant | convert_vlm_r1_ovd_to_xlabel.py:174-179 | the search raises only on a non-dict element, and never on a list of dicts |
| ConvertScript.NoImageNoWrite | convert_vlm_r1_ovd_to_xlabel.py:147-150 | an entry without a truthy `image` writes nothing |
| ConvertScript.WrittenDocument | convert_vlm_r1_ovd_to_xlabel.py:147-234 | a written document is `<output>/<stem>.json`, has `imagePath` = `basename(image)`, version `4.0` and the width and height found for the image; its shapes are none for a falsy first assistant answer and otherwise the ordered rectangles of the as-written extraction of that answer, each inside the image |
| ConvertScript.EmptyAnswerWritesEmptyDocument | convert_vlm_r1_ovd_to_xlabel.py:174-187 | an entry with no assistant turn still gets a document, with no shapes |
| ConvertScript.FalsyAnswerWritesEmptyDocument | convert_vlm_r1_ovd_to_xlabel.py:174-187 | an entry whose first assistant turn has an empty, null or missing `value` also gets a document with no shapes, whatever follows that turn |
| ConvertScript.FirstAssistantAt | convert_vlm_r1_ovd_to_xlabel.py:174-179 | the search stops at the first assistant turn and takes its `value`, `""` when missing |
| ConvertScript.NotationOnlyAnswerWritesNoShapes | convert_vlm_r1_ovd_to_xlabel.py:110-130 | an answer with no decodable JSON, fence or answer tag (a `bbox2d` answer included) gives a document with no shapes, since the pattern as written captures no coordinates |
| ConvertScript.ConvertsGeneratedHistory | convert_vlm_r1_ovd_to_xlabel.py:174-179 | the converter reads a generated JSONL entry as the first assistant message of its history |
| ConvertScript.ConvertLines | convert_vlm_r1_ovd_to_xlabel.py:253-272 | the count equals the number of documents written, and is at most the number of lines |
| ConvertScript.SkippedLine | convert_vlm_r1_ovd_to_xlabel.py:255-263 | blank lines and lines that do not decode change nothing |
| ConvertScript.CountIsWritten | convert_vlm_r1_ovd_to_xlabel.py:265-272 | `converted_count` is the number of lines whose entry returned a path |
| ConvertScript.WrittenLines | convert_vlm_r1_ovd_to_xlabel.py:265-272 | each counted line is one of the input lines and its entry was written |
| ConvertScript.ConvertFile | convert_vlm_r1_ovd_to_xlabel.py:237-275 | the line loop computes the counted conversion of the file |
| ConvertScript.ConvertLine | convert_vlm_r1_ovd_to_xlabel.py:255-272 | one line: a blank or undecodable line is skipped, any other line's entry is converted |
| ConvertScript.ConvertEntryLoops | convert_vlm_r1_ovd_to_xlabel.py:135-234 | the entry conversion, with its loops and the `bbox2d` pattern as written, computes the entry's outcome |
| ConvertScript.FindAssistant | convert_vlm_r1_ovd_to_xlabel.py:174-179 | the conversation loop finds the first assistant `value` |
| ConvertScript.BuildOrderedShapes | convert_vlm_r1_ovd_to_xlabel.py:193-227 | the shapes loop computes the clamped, ordered rectangles |
| ConvertScript.OrderedItem | convert_vlm_r1_ovd_to_xlabel.py:194-227 | one item: skipped without both keys, raising on a box that is not four numbers, otherwise the clamped rectangle with ordered corners |
| ConvertScript.CollectCandidates | convert_vlm_r1_ovd_to_xlabel.py:50-55 | the candidate loop keeps the qualifying dicts in order |
| ConvertScript.FirstBlockLoop | convert_vlm_r1_ovd_to_xlabel.py:63-74 | the block loop computes the block stage |
| ConvertScript.AnswersLoop | convert_vlm_r1_ovd_to_xlabel.py:80-107 | the answer loop with its nested retry computes the answer stage |
| ConvertScript.NotationLoop | convert_vlm_r1_ovd_to_xlabel.py:113-130 | the `bbox2d` loop computes the notation stage |
| ConvertScript.CaptureCoords | convert_vlm_r1_ovd_to_xlabel.py:114-130 | one match: the coordinates as JSON, else the decimal tokens |
| ConvertScript.ExtractBboxDataLoop | convert_vlm_r1_ovd_to_xlabel.py:35-132 | each stage runs only while nothing was found; the result is the extractor's as written (`Extraction.ExtractBboxDataAsWritten`) |
| Conversation.TagAt | anylabeling/views/labeling/widgets/chatbot_dialog.py:1039-1040 | `@image\s*(?=\S\|$)` matches at a position exactly when `@image` starts there |
| Conversation.NewMessage | anylabeling/views/labeling/widgets/chatbot_dialog.py:1036-1041 | a message gets the image iff it is a user message mentioning `@image` or `<image>` while an image is loaded; such a message's content then has no `@image` and contains `<image>`, any other message's content is unchanged |
| Conversation.NoTagRemains | anylabeling/views/labeling/widgets/chatbot_dialog.py:1039-1040 | no `@image` survives the rewrite |
| Conversation.TokenPresent | anylabeling/views/labeling/widgets/chatbot_dialog.py:1038-1040 | a content that mentions an image contains `<image>` after the rewrite |
| Conversation.NoTagUnchanged | anylabeling/views/labeling/widgets/chatbot_dialog.py:1039-1040 | a content without `@image` is left as it is |
| Conversation.NewMessageIdempotent | anylabeling/views/labeling/widgets/chatbot_dialog.py:1036-1041 | adding an already rewritten message again changes nothing |
| Conversation.RewriteLeadingTag | anylabeling/views/labeling/widgets/chatbot_dialog.py:1039-1040 | `@image` and the whitespace after it become `<image>` |
| Conversation.AddMessage | anylabeling/views/labeling/widgets/chatbot_dialog.py:1025-1076 | one widget is added per call, and the history never has more entries than there are widgets |
| Conversation.StartGeneration | anylabeling/views/labeling/widgets/chatbot_dialog.py:1086-1132 | the transition keeps history within the widgets; what it does is stated by `Conversation.StartGenerationGuard`, `FailedTurnRestoresHistory` and `SuccessfulTurn` |
| Conversation.StartGenerationGuard | anylabeling/views/labeling/widgets/chatbot_dialog.py:1086-1118 | a generation starts iff nothing streams and the input is not blank; it records the stripped user message, clears the input and starts streaming |
| Conversation.UpdateOutput | anylabeling/views/labeling/widgets/chatbot_dialog.py:1217-1243 | the streaming transition keeps history within the widgets; the text it accumulates is stated by `Conversation.StreamedText` |
| Conversation.StreamedText | anylabeling/views/labeling/widgets/chatbot_dialog.py:1217-1243 | the bubble's text is the chunks' text in order |
| Conversation.OnStreamFinished | anylabeling/views/labeling/widgets/chatbot_dialog.py:1245-1299 | streaming always ends; a failed stream leaves history and widgets as they were |
| Conversation.HandleError | anylabeling/views/labeling/widgets/chatbot_dialog.py:2826-2843 | the error transition keeps history within the widgets; its roll-back of the unanswered user message is stated by `Conversation.FailedTurnRestoresHistory` |
| Conversation.FailedTurnRestoresHistory | anylabeling/views/labeling/widgets/chatbot_dialog.py:2826-2843 | start, error and a failed finish leave the history as before the turn |
| Conversation.SuccessfulTurn | anylabeling/views/labeling/widgets/chatbot_dialog.py:1245-1272 | a successful turn adds the user message and the streamed answer, and ends streaming |
| Conversation.ClearMessagesAfter | anylabeling/views/labeling/widgets/chatbot_dialog.py:2919-2958 | the transition keeps history within the widgets; the prefix it leaves is stated by `Conversation.ClearLeavesPrefix` |
| Conversation.ClearLeavesPrefix | anylabeling/views/labeling/widgets/chatbot_dialog.py:2919-2958 | clearing from `index` keeps the first `index` widgets and history entries, and changes nothing when there is no widget at `index` |
| Conversation.RegenerateResponse | anylabeling/views/labeling/widgets/chatbot_dialog.py:2960-2996 | the transition keeps history within the widgets; its two outcomes are stated by `Conversation.RegenerateWhileStreaming` and `Conversation.RegenerateClears` |
| Conversation.RegenerateWhileStreaming | anylabeling/views/labeling/widgets/chatbot_dialog.py:2962-2963 | regeneration is ignored while a stream runs |
| Conversation.RegenerateClears | anylabeling/views/labeling/widgets/chatbot_dialog.py:2960-2996 | regenerating from a shown widget while idle cuts widgets and history at that widget and starts streaming into an empty loading bubble, the input untouched |
| Conversation.ResubmitEditedMessage | anylabeling/views/labeling/widgets/chatbot_dialog.py:2894-2917 | the transition keeps history within the widgets and changes nothing for a widget that is not shown; its outcomes are stated by `Conversation.ResubmitStartsTurn` and `Conversation.ResubmitWithoutTurn` |
| Conversation.ResubmitStartsTurn | anylabeling/views/labeling/widgets/chatbot_dialog.py:2894-2917 | resubmitting while idle with a non-blank text cuts history at the edited widget, appends the stripped text as a user message, leaves `k + 1` widgets, empties the input and starts streaming |
| Conversation.ResubmitWithoutTurn | anylabeling/views/labeling/widgets/chatbot_dialog.py:2894-2917 | resubmitting while a stream runs or with a blank text still cuts widgets and history at the edited widget and leaves the text in the input, but starts no generation |
| Conversation.ClearConversation | anylabeling/views/labeling/widgets/chatbot_dialog.py:3045-3074 | a confirmed clear empties history and widgets |
| Conversation.LoadMessages | anylabeling/views/labeling/widgets/chatbot_dialog.py:990-993 | loading messages keeps history within the widgets |
| Conversation.LoadInitialData | anylabeling/views/labeling/widgets/chatbot_dialog.py:983-1001 | the transition keeps history within the widgets |
| Conversation.LoadChatForImage | anylabeling/views/labeling/widgets/chatbot_dialog.py:1545-1563 | after loading an image's chat, history is within the widgets |
| Conversation.ReloadSavedHistory | anylabeling/views/labeling/widgets/chatbot_dialog.py:1545-1563 | reloading a history saved for the same image gives that history back, one widget per message |
| Conversation.ReloadMessages | anylabeling/views/labeling/widgets/chatbot_dialog.py:990-993 | loading saved messages appends them unchanged |
| Conversation.HistoryJson | anylabeling/views/labeling/widgets/chatbot_dialog.py:1063-1065 | one stored dict per message, in order |
| Conversation.PositionOf | anylabeling/views/labeling/widgets/chatbot_dialog.py:1517-1520 | the first position of the current image in the list, `None` when it is absent |
| Conversation.NavigateTarget | anylabeling/views/labeling/widgets/chatbot_dialog.py:1508-1543 | a navigation target is always a valid index |
| Conversation.NavigateSteps | anylabeling/views/labeling/widgets/chatbot_dialog.py:1517-1529 | `prev` and `next` move one step within bounds; an unknown direction goes nowhere |
| Conversation.NavigateBack | anylabeling/views/labeling/widgets/chatbot_dialog.py:1522-1529 | `next` then `prev` comes back to the same image |
| Conversation.NavigateImage | anylabeling/views/labeling/widgets/chatbot_dialog.py:1508-1543 | navigating keeps history within the widgets |
| Dialog.ChatbotDialog.constructor | anylabeling/views/labeling/widgets/chatbot_dialog.py:73 | a dialog starts with an empty history, nothing streaming and no widgets |
| Dialog.ChatbotDialog.AddMessage | anylabeling/views/labeling/widgets/chatbot_dialog.py:1025-1076 | the fields change exactly as `Conversation.AddMessage` says |
| Dialog.ChatbotDialog.StartGeneration | anylabeling/views/labeling/widgets/chatbot_dialog.py:1086-1132 | the fields change exactly as `Conversation.StartGeneration` says |
| Dialog.ChatbotDialog.UpdateOutput | anylabeling/views/labeling/widgets/chatbot_dialog.py:1217-1243 | the fields change exactly as `Conversation.UpdateOutput` says |
| Dialog.ChatbotDialog.OnStreamFinished | anylabeling/views/labeling/widgets/chatbot_dialog.py:1245-1299 | the fields change exactly as `Conversation.OnStreamFinished` says |
| Dialog.ChatbotDialog.HandleError | anylabeling/views/labeling/widgets/chatbot_dialog.py:2826-2843 | the fields change exactly as `Conversation.HandleError` says |
| Dialog.ChatbotDialog.ClearMessagesAfter | anylabeling/views/labeling/widgets/chatbot_dialog.py:2919-2958 | the widget-removal loop and the history slice give `Conversation.ClearMessagesAfter` |
| Dialog.ChatbotDialog.RegenerateResponse | anylabeling/views/labeling/widgets/chatbot_dialog.py:2960-2996 | the fields change exactly as `Conversation.RegenerateResponse` says |
| Dialog.ChatbotDialog.ResubmitEditedMessage | anylabeling/views/labeling/widgets/chatbot_dialog.py:2894-2917 | the fields change exactly as `Conversation.ResubmitEditedMessage` says |
| Dialog.ChatbotDialog.ClearConversation | anylabeling/views/labeling/widgets/chatbot_dialog.py:3045-3074 | the fields change exactly as `Conversation.ClearConversation` says |
| Dialog.ChatbotDialog.LoadInitialData | anylabeling/views/labeling/widgets/chatbot_dialog.py:983-1001 | the message loop gives `Conversation.LoadInitialData` |
| Dialog.ChatbotDialog.NavigateImage | anylabeling/views/labeling/widgets/chatbot_dialog.py:1508-1563 | the fields change exactly as `Conversation.NavigateImage` says |
| QwenVl.StrLabel | anylabeling/services/auto_labeling/qwen_vl.py:172-175 | `str(category)` keeps a string as it is |
| QwenVl.FirstPresent | anylabeling/services/auto_labeling/qwen_vl.py:196-199 | the first of the keys present in the dict: none before it is present |
| QwenVl.Lookup | anylabeling/services/auto_labeling/qwen_vl.py:196-207 | nested `.get` is the value of the first key present, whatever it is, or the default when none is |
| QwenVl.ExtractJsonFromResponse | anylabeling/services/auto_labeling/qwen_vl.py:129-147 | when a `{...}` span exists, its decoding is the result |
| QwenVl.ObjectSpan | anylabeling/services/auto_labeling/qwen_vl.py:133-136 | the text from the first `{` to the last `}` is decoded; if it fails, the result is `None` and no `[...]` span is tried |
| QwenVl.ArraySpan | anylabeling/services/auto_labeling/qwen_vl.py:138-142 | without any `{...}` span, the text from the first `[` to the last `]` is decoded |
| QwenVl.NoSpan | anylabeling/services/auto_labeling/qwen_vl.py:144 | without either kind of span the result is `None` |
| QwenVl.PlanFor | anylabeling/services/auto_labeling/qwen_vl.py:160-188 | a list is the object list; a dict's objects come from the first of `objects`, `results`, `detections`; the whole-image case needs `categories` and none of those |
| QwenVl.ObjectList | anylabeling/services/auto_labeling/qwen_vl.py:186-191 | a list is walked element by element; anything else gives no shapes |
| QwenVl.CornersOf | anylabeling/services/auto_labeling/qwen_vl.py:201-217 | a rectangle is built iff all four corner values are numbers, with exactly those values |
| QwenVl.BoxOf | anylabeling/services/auto_labeling/qwen_vl.py:199-209 | a falsy bbox gives no rectangle; a truthy bbox that is neither a 4-list nor a dict skips the object; a 4-list gives its four numbers in order |
| QwenVl.PointShapeOf | anylabeling/services/auto_labeling/qwen_vl.py:224-242 | each element adds at most one point and never when it raises; elements that are neither dicts nor 2-lists add nothing; 2-list points are labelled `point` |
| QwenVl.PointsEmission | anylabeling/services/auto_labeling/qwen_vl.py:220-242 | the points loop adds only points |
| QwenVl.PointItems | anylabeling/services/auto_labeling/qwen_vl.py:220-223 | a truthy list of points is walked, anything that is not a list gives none |
| QwenVl.ObjectLabel | anylabeling/services/auto_labeling/qwen_vl.py:196 | the label is `label`, else `class`, else `category`, else `object` |
| QwenVl.ObjectShapes | anylabeling/services/auto_labeling/qwen_vl.py:190-242 | a non-dict or an unknown bbox form adds nothing; the rectangle comes first, labelled with the object's label and unclamped, and everything after it is a point |
| QwenVl.PostprocessShapes | anylabeling/services/auto_labeling/qwen_vl.py:150-247 | no JSON or falsy JSON gives no shapes |
| QwenVl.PointsAppend | anylabeling/services/auto_labeling/qwen_vl.py:224-242 | the points of a concatenated list are the points of the first part, then, unless it raised, those of the second |
| QwenVl.ObjectsAppend | anylabeling/services/auto_labeling/qwen_vl.py:190-245 | the shapes of a concatenated object list are those of the first part, then, unless it raised, those of the second |
| QwenVl.PointsStop | anylabeling/services/auto_labeling/qwen_vl.py:223-245 | once a point raises, no later point is added |
| QwenVl.ObjectsStop | anylabeling/services/auto_labeling/qwen_vl.py:191-247 | once an object raises, the shapes collected so far are the result |
| QwenVl.NonDictSkipped | anylabeling/services/auto_labeling/qwen_vl.py:191-193 | a non-dict element changes nothing, wherever it stands |
| QwenVl.PlainDetections | anylabeling/services/auto_labeling/qwen_vl.py:190-217 | plain detections give exactly one rectangle each, in order, with their corners neither clamped nor reordered |
| QwenVl.PostprocessDetections | anylabeling/services/auto_labeling/qwen_vl.py:150-247 | a reply whose JSON is a list of plain detections gives exactly their rectangles |
| QwenVl.PostprocessList | anylabeling/services/auto_labeling/qwen_vl.py:155-191 | a reply whose JSON is a non-empty list is taken as the object list: the shapes are those the object loop emits for its elements |
| QwenVl.Classification | anylabeling/services/auto_labeling/qwen_vl.py:170-182 | a classification reply gives one whole-image rectangle `(0,0)`-`(width,height)` labelled `category` (else `categories`), or none when that label is falsy |
| QwenVl.SingleObject | anylabeling/services/auto_labeling/qwen_vl.py:183-185 | a dict with none of the container keys and no `categories` is read as one object |
| QwenVl.PromptFor | anylabeling/services/auto_labeling/qwen_vl.py:256-266 | a non-empty text prompt wins outside `custom`; `visual_qa` with a question asks that question; otherwise (`visual_qa` without a question included, whose template keeps its `{question}` placeholder) the task's template is used, falling back to object detection |
| QwenVl.CustomPrompt | anylabeling/services/auto_labeling/qwen_vl.py:258-270 | a `custom` task without a text prompt sends its custom prompt when that prompt has no `{custom_prompt}` in it |
| QwenVl.CustomPromptPlaceholder | anylabeling/services/auto_labeling/qwen_vl.py:258-270 | a custom prompt holding `{custom_prompt}` has its first occurrence replaced by the whole custom prompt, and the rest replaced in turn |
| QwenVl.EmptyCustomPrompt | anylabeling/services/auto_labeling/qwen_vl.py:262-266 | a `custom` task with an empty custom prompt sends the empty prompt |
| QwenVl.CustomTextPrompt | anylabeling/services/auto_labeling/qwen_vl.py:256-270 | in a `custom` task the text prompt also wins, unchanged when it has no `{custom_prompt}` in it |
| QwenVl.CustomTextPlaceholder | anylabeling/services/auto_labeling/qwen_vl.py:256-270 | in a `custom` task a text prompt holding `{custom_prompt}` has its first occurrence replaced by the custom prompt, and the rest replaced in turn |
| QwenVl.QwenVL.constructor | anylabeling/services/auto_labeling/qwen_vl.py:75-78 | no marks, task `object_detection`, empty custom prompt and question |
| QwenVl.QwenVL.SetAutoLabelingMarks | anylabeling/services/auto_labeling/qwen_vl.py:108-110 | only the marks change |
| QwenVl.QwenVL.SetTaskType | anylabeling/services/auto_labeling/qwen_vl.py:112-114 | only the task type changes |
| QwenVl.QwenVL.SetCustomPrompt | anylabeling/services/auto_labeling/qwen_vl.py:116-118 | only the custom prompt changes |
| QwenVl.QwenVL.SetQuestion | anylabeling/services/auto_labeling/qwen_vl.py:120-122 | only the question changes |
| QwenVl.QwenVL.SelectPrompt | anylabeling/services/auto_labeling/qwen_vl.py:256-266 | the step-by-step reassignment of `prompt` computes `PromptFor` |
| QwenVl.QwenVL.Postprocess | anylabeling/services/auto_labeling/qwen_vl.py:150-247 | the appending loop, which returns on an exception, computes `PostprocessShapes` |
| QwenVl.QwenVL.SelectObjects | anylabeling/services/auto_labeling/qwen_vl.py:160-188 | the object list chosen from the reply is the first container key's value present, else the dict itself, or the list as it is, read as `for` would iterate it |
| QwenVl.QwenVL.AppendObjects | anylabeling/services/auto_labeling/qwen_vl.py:190-247 | the object loop, which stops at the first exception, appends exactly the shapes the object emissions give |
| QwenVl.QwenVL.ShapesOf | anylabeling/services/auto_labeling/qwen_vl.py:190-242 | one pass of the object loop adds the object's shapes, or stops at the exception |
| QwenVl.QwenVL.PointShapes | anylabeling/services/auto_labeling/qwen_vl.py:220-242 | the points loop adds the object's points, stopping at the first bad one |
| QwenVl.QwenVL.PredictShapes | anylabeling/services/auto_labeling/qwen_vl.py:249-281 | no image gives an empty result; otherwise the reply to the chosen prompt is post-processed; existing shapes are never replaced |

## Left out

- I/O is not modelled: files, images, Qt widgets, animations, tooltips, focus, scrolling and the `set_components_enabled` calls. A widget is only counted.
- The worker thread `stream_generation`, its cancellation poller and the cancel race (both `finished(False)` and `finished(True)` can fire) are concurrency. Only the foreground reactions to `update_output`, `error` and `finished` are modelled.
- OpenAI client calls, model listing and the batch `process_next_image` loop are network I/O and are not modelled.
- Qwen-VL model loading, `preprocess`, tokenisation, `generate` and `unload` are foreign libraries. The reply is the parameter `generate`.
- `extract_and_save_labeling_result` depends on `LabelConverter`, which is not part of this model.
- In the XLABEL documents, the constant fields (`flags`, `description`, `imageData`, `shape_type`, `group_id`) are not stored.
- The int/float distinction of Python numbers is not kept: JSON numbers are exact reals, and NaN and infinities do not occur.
- `\w` and `\d` are modelled on ASCII letters and digits; Unicode word characters and digits are not.
- `str(value)` of a non-string label is kept symbolically (`QwenVl.StrOf`), not rendered as text.
- Conversation.AddMessage: the parent's `other_data["chat_history"]` aliasing (the parent and the dialog sharing one list) is not modelled. The history is a value.
- Conversation.OnStreamFinished: `set_dirty`, the chat-history save and the XLABEL generation that follow a successful stream are modelled separately (`Documents`, `Shapes`), not chained to the transition.
- Conversation.LoadInitialData: messages that are not dicts, or whose role or content is not a string, are skipped; Python would test `in` on them and may raise.
- Dialog.ChatbotDialog: the methods promise the transition functions' results; the history bound is proved about those functions, not restated on each method.
- Export and import copy images with `shutil` and write zip files; only the records are modelled.
- QwenVl.QwenVL.PredictShapes: the image is only its size `(width, height)`; a failure in `preprocess` is not modelled.

## Findings

| source | as written | input that shows it | evidently intended | confidence | as-written member | corrected member |
|---|---|---|---|---|---|---|
| convert_vlm_r1_ovd_to_xlabel.py:111 (same as anylabeling/views/labeling/widgets/chatbot_dialog.py:2094) | `bbox2d\s+([^\s$]+?)\s*$(.*?)$` uses `$` anchors, so the coordinate group only captures the empty string and stage 4 never adds a box | `bbox2d cat (10,20,30,40)` | `bbox2d\s+([^\s(]+?)\s*\((.*?)\)`, each `$` read as the parenthesis it stands in for, which captures `cat` and `10,20,30,40` | not executed | Extraction.NotationCounterexample | Extraction.NotationFound |
