/** The chat dialog's conversation bookkeeping: the `chat_history` list, the
    `streaming` flag, the loading bubble that collects the streamed answer,
    and the message widgets shown. The worker thread is not modelled: its
    `update_output`, `finished(success)` and `error(message)` signals are the
    events the dialog reacts to. */
module Conversation {
  import opened JsonValues
  import opened Text
  import opened Scanners

  // ---------------------------------------------------------------------------
  // Messages and the `@image` rewrite

  /** One `chat_history` entry: `{"role", "content", "image"}`. */
  datatype Message = Message(role: string, content: string, image: Option<string>)

  const ImageTag := "@image"
  const ImageToken := "<image>"

  /** `re.sub(r"@image\s*(?=\S|$)", "<image>", s)` from index `i`: every
      `@image` and the whitespace after it become `<image>`. The lookahead
      always holds once the whitespace run is consumed. */
  function RewriteFrom(s: string, i: nat): string
    requires i <= |s|
    decreases |s| - i
  {
    if i == |s| then []
    else match TagAt(s, i)
      case Some(j) => ImageToken + RewriteFrom(s, j)
      case None => [s[i]] + RewriteFrom(s, i + 1)
  }

  /** Where the match of the pattern at `i` ends, if it matches there. */
  function TagAt(s: string, i: nat): (r: Option<nat>)
    requires i <= |s|
    ensures r.Some? <==> HasAt(s, ImageTag, i)
    ensures r.Some? ==> i + 6 <= r.value <= |s|
  {
    if HasAt(s, ImageTag, i) then Some(SkipSpace(s, i + 6)) else None
  }

  /** One step of the rewrite. */
  lemma RewriteStep(s: string, i: nat)
    requires i < |s|
    ensures TagAt(s, i).Some? ==> RewriteFrom(s, i) == ImageToken + RewriteFrom(s, TagAt(s, i).value)
    ensures TagAt(s, i).None? ==> RewriteFrom(s, i) == [s[i]] + RewriteFrom(s, i + 1)
  {
  }

  function RewriteImageTags(s: string): string {
    RewriteFrom(s, 0)
  }

  /** A user message that mentions an image. */
  predicate MentionsImage(content: string) {
    Contains(content, ImageTag) || Contains(content, ImageToken)
  }

  /** The entry `add_message` stores: a user message that mentions an image
      has its tags rewritten, is stripped, and records the current image
      (`filename`, where `""` stands for no image loaded, recorded as
      `None`). */
  function NewMessage(role: string, content: string, filename: string): (m: Message)
    ensures m.role == role
    ensures m.image.Some? <==> role == "user" && MentionsImage(content) && filename != ""
    ensures m.image.Some? ==> m.image.value == filename
    ensures !(role == "user" && MentionsImage(content)) ==> m.content == content
    ensures role == "user" && MentionsImage(content)
            ==> !Contains(m.content, ImageTag) && Contains(m.content, ImageToken)
  {
    if role == "user" && MentionsImage(content) then
      TagRewritten(content);
      Message(role, Strip(RewriteImageTags(content)), if filename != "" then Some(filename) else None)
    else Message(role, content, None)
  }

  /** After the rewrite no `@image` is left, an image mention survives as
      `<image>`, and the strip keeps both facts. */
  lemma TagRewritten(content: string)
    requires MentionsImage(content)
    ensures !Contains(Strip(RewriteImageTags(content)), ImageTag)
    ensures Contains(Strip(RewriteImageTags(content)), ImageToken)
  {
    var r := RewriteImageTags(content);
    NoTagRemains(content, 0);
    TokenPresent(content);
    StripKeeps(r, ImageToken);
    if Contains(Strip(r), ImageTag) {
      InStripped(r, ImageTag);
    }
  }

  /** What the strip keeps was in the text. */
  lemma InStripped(r: string, p: string)
    requires Contains(Strip(r), p)
    ensures Contains(r, p)
  {
    var t := Strip(r);
    var k := FindFrom(t, p, 0).value;
    var a := LeadingSpace(r);
    SliceHas(r, p, a, a + |t|, k);
    ContainsAt(r, p, a + k);
  }

  /** An occurrence in `b` is an occurrence in `a + b`. */
  lemma ContainsInSuffix(a: string, b: string, p: string)
    requires Contains(b, p)
    ensures Contains(a + b, p)
  {
    var k := FindFrom(b, p, 0).value;
    assert (a + b)[|a| + k..|a| + k + |p|] == b[k..k + |p|];
    ContainsAt(a + b, p, |a| + k);
  }

  /** An occurrence in `a + b` whose first character is not in `a` lies in `b`. */
  lemma ContainsInConcat(a: string, b: string, p: string)
    requires Contains(a + b, p) && p != []
    requires forall j :: 0 <= j < |a| ==> a[j] != p[0]
    ensures Contains(b, p)
  {
    var k := FindFrom(a + b, p, 0).value;
    assert (a + b)[k..k + |p|][0] == (a + b)[k];
    assert k >= |a|;
    assert b[k - |a|..k - |a| + |p|] == (a + b)[k..k + |p|];
    ContainsAt(b, p, k - |a|);
  }

  /** Where the rewritten text starts with a text free of `@` and `<`, the
      original text starts with it too. */
  lemma {:induction false} PlainPrefix(s: string, i: nat, p: string)
    requires i <= |s| && '@' !in p && '<' !in p
    requires |p| <= |RewriteFrom(s, i)| && RewriteFrom(s, i)[..|p|] == p
    ensures HasAt(s, p, i)
    decreases |p|
  {
    if p != [] {
      var out := RewriteFrom(s, i);
      RewriteStep(s, i);
      assert out[0] == p[0] && p[0] in p;
      assert !HasAt(s, ImageTag, i);
      assert RewriteFrom(s, i + 1)[..|p| - 1] == p[1..];
      PlainPrefix(s, i + 1, p[1..]);
      assert s[i..i + |p|] == [s[i]] + s[i + 1..i + 1 + |p[1..]|];
    }
  }

  /** The rewrite leaves no `@image` behind. */
  lemma {:induction false} NoTagRemains(s: string, i: nat)
    requires i <= |s|
    ensures !Contains(RewriteFrom(s, i), ImageTag)
    decreases |s| - i
  {
    if i < |s| {
      RewriteStep(s, i);
      match TagAt(s, i)
      case Some(j) =>
        NoTagRemains(s, j);
        TokenKeepsClean(RewriteFrom(s, j));
      case None =>
        NoTagRemains(s, i + 1);
        CopiedCharNoTag(s, i);
    }
  }

  lemma TokenKeepsClean(t: string)
    requires !Contains(t, ImageTag)
    ensures !Contains(ImageToken + t, ImageTag)
  {
    if Contains(ImageToken + t, ImageTag) {
      ContainsInConcat(ImageToken, t, ImageTag);
    }
  }

  /** A copied character cannot start an `@image`: the five characters after
      an `@` that starts one would come from the text unchanged. */
  lemma CopiedCharNoTag(s: string, i: nat)
    requires i < |s| && !HasAt(s, ImageTag, i)
    requires !Contains(RewriteFrom(s, i + 1), ImageTag)
    ensures !Contains([s[i]] + RewriteFrom(s, i + 1), ImageTag)
  {
    var rest := RewriteFrom(s, i + 1);
    var t := [s[i]] + rest;
    if Contains(t, ImageTag) {
      var k := FindFrom(t, ImageTag, 0).value;
      assert HasAt(t, ImageTag, k);
      if k == 0 {
        TagAtCopiedChar(s, i);
      } else {
        TagLater(s[i], rest, k);
      }
    }
  }

  lemma TagAtCopiedChar(s: string, i: nat)
    requires i < |s| && !HasAt(s, ImageTag, i)
    ensures !HasAt([s[i]] + RewriteFrom(s, i + 1), ImageTag, 0)
  {
    var rest := RewriteFrom(s, i + 1);
    if HasAt([s[i]] + rest, ImageTag, 0) {
      ImageHead(s[i], rest);
      PlainPrefix(s, i + 1, "image");
      TagFromParts(s, i);
      assert false;
    }
  }

  lemma TagFromParts(s: string, i: nat)
    requires i < |s| && s[i] == '@' && HasAt(s, "image", i + 1)
    ensures HasAt(s, ImageTag, i)
  {
    assert s[i..i + 6] == [s[i]] + s[i + 1..i + 6];
  }

  lemma ImageHead(c: char, rest: string)
    requires HasAt([c] + rest, ImageTag, 0)
    ensures c == '@' && 5 <= |rest| && rest[..5] == "image"
  {
    var t := [c] + rest;
    assert t[0..6] == ImageTag;
    assert c == t[0..6][0];
    assert rest[..5] == t[0..6][1..];
  }

  lemma TagLater(c: char, rest: string, k: nat)
    requires 0 < k && HasAt([c] + rest, ImageTag, k)
    ensures Contains(rest, ImageTag)
  {
    assert rest[k - 1..k - 1 + 6] == ([c] + rest)[k..k + 6];
    ContainsAt(rest, ImageTag, k - 1);
  }

  /** The text before the first `@image` is copied unchanged. */
  lemma {:induction false} CopiedUntilTag(s: string, i: nat, f: nat)
    requires i <= f <= |s|
    requires forall j :: i <= j < f ==> !HasAt(s, ImageTag, j)
    ensures RewriteFrom(s, i) == s[i..f] + RewriteFrom(s, f)
    decreases f - i
  {
    if i < f {
      assert TagAt(s, i).None?;
      RewriteStep(s, i);
      CopiedUntilTag(s, i + 1, f);
      var a, b, c := [s[i]], s[i + 1..f], RewriteFrom(s, f);
      assert a + (b + c) == (a + b) + c;
      assert a + b == s[i..f];
    }
  }

  /** A text that mentions an image still contains `<image>` after the
      rewrite. */
  lemma TokenPresent(s: string)
    requires MentionsImage(s)
    ensures Contains(RewriteImageTags(s), ImageToken)
  {
    if Contains(s, ImageTag) {
      var p := FindFrom(s, ImageTag, 0).value;
      CopiedUntilTag(s, 0, p);
      var tail := RewriteFrom(s, p);
      assert tail[..7] == ImageToken;
      ContainsAt(tail, ImageToken, 0);
      ContainsInSuffix(s[0..p], tail, ImageToken);
    } else {
      NoTagUnchanged(s);
    }
  }

  /** A text without `@image` is left as it is. */
  lemma NoTagUnchanged(s: string)
    requires !Contains(s, ImageTag)
    ensures RewriteImageTags(s) == s
  {
    CopiedUntilTag(s, 0, |s|);
    assert s[0..|s|] == s;
  }

  /** A text already stripped is its own strip. */
  lemma StripOfStripped(r: string)
    requires r == [] || (!IsSpace(r[0]) && !IsSpace(r[|r| - 1]))
    ensures Strip(r) == r
  {
    if r != [] {
      assert SkipSpace(r, 0) == 0;
      assert SpaceRunStart(r, 0, |r|) == |r|;
    }
    assert r[0..|r|] == r;
  }

  /** Storing a stored message again gives the same entry: the rewrite and
      the strip are idempotent on what they produce. */
  lemma NewMessageIdempotent(role: string, content: string, filename: string)
    ensures var m := NewMessage(role, content, filename);
            NewMessage(role, m.content, filename) == m
  {
    var m := NewMessage(role, content, filename);
    if role == "user" && MentionsImage(content) {
      var c := m.content;
      assert c == Strip(RewriteImageTags(content));
      assert MentionsImage(c);
      NoTagUnchanged(c);
      StripOfStripped(c);
      assert Strip(RewriteImageTags(c)) == c;
    }
  }

  /** One example: the tag and the blanks after it collapse into the token. */
  lemma RewriteLeadingTag(rest: string)
    requires rest == [] || !IsSpace(rest[0])
    ensures RewriteImageTags("@image  " + rest) == "<image>" + RewriteImageTags(rest)
  {
    var s := "@image  " + rest;
    assert HasAt(s, ImageTag, 0);
    assert SkipSpace(s, 6) == 8 by {
      assert IsSpace(s[6]) && IsSpace(s[7]);
      assert 8 < |s| ==> s[8] == rest[0];
    }
    Shifted("@image  ", rest, 0);
  }

  /** Rewriting a suffix that starts after a scan position gives the same
      text as rewriting it alone. */
  lemma {:induction false} Shifted(pre: string, rest: string, i: nat)
    requires i <= |rest|
    ensures RewriteFrom(pre + rest, |pre| + i) == RewriteFrom(rest, i)
    decreases |rest| - i
  {
    var s := pre + rest;
    var k := |pre| + i;
    if i < |rest| {
      TagAtShifted(pre, rest, i);
      RewriteStep(s, k);
      RewriteStep(rest, i);
      match TagAt(rest, i)
      case Some(j) =>
        Shifted(pre, rest, j);
      case None =>
        Shifted(pre, rest, i + 1);
        assert s[k] == rest[i];
    }
  }

  /** The pattern matches at a shifted position exactly when it matches in
      the suffix, and its match ends shifted the same way. */
  lemma TagAtShifted(pre: string, rest: string, i: nat)
    requires i < |rest|
    ensures TagAt(pre + rest, |pre| + i)
            == if TagAt(rest, i).Some? then Some(|pre| + TagAt(rest, i).value) else None
  {
    TagShifted(pre, rest, i);
    if HasAt(rest, ImageTag, i) {
      SkipShifted(pre, rest, i + 6);
    }
  }

  /** The tag occurs at a shifted position exactly when it occurs in the
      suffix. */
  lemma TagShifted(pre: string, rest: string, i: nat)
    requires i < |rest|
    ensures HasAt(pre + rest, ImageTag, |pre| + i) == HasAt(rest, ImageTag, i)
  {
    var s := pre + rest;
    if |pre| + i + 6 <= |s| {
      assert s[|pre| + i..|pre| + i + 6] == rest[i..i + 6];
    }
  }

  lemma {:induction false} SkipShifted(pre: string, rest: string, i: nat)
    requires i <= |rest|
    ensures SkipSpace(pre + rest, |pre| + i) == |pre| + SkipSpace(rest, i)
    decreases |rest| - i
  {
    if i < |rest| && IsSpace(rest[i]) {
      SkipShifted(pre, rest, i + 1);
    }
  }

  // ---------------------------------------------------------------------------
  // The dialog's state

  /** The fields the conversation logic reads and writes: the history, the
      `streaming` flag, whether a loading bubble is shown and the text
      streamed into it, the number of message widgets, the input box and
      the current image. */
  datatype ChatState = ChatState(
    history: seq<Message>,
    streaming: bool,
    loading: bool,
    loadingText: string,
    widgets: nat,
    input: string,
    filename: string)

  /** Every history entry has its widget; error widgets have no entry. */
  predicate Consistent(st: ChatState) {
    |st.history| <= st.widgets
  }

  /** `chat_history[:-1]`. */
  function DropLast(h: seq<Message>): (r: seq<Message>)
    ensures h != [] ==> h == r + [h[|h| - 1]]
    ensures h == [] ==> r == []
  {
    if h == [] then [] else h[..|h| - 1]
  }

  /** `add_message`: a widget is always added; the entry is appended, or with
      `delete_last_message` the last entry is dropped instead. */
  function AddMessage(st: ChatState, role: string, content: string, deleteLast: bool): (r: ChatState)
    ensures Consistent(st) ==> Consistent(r)
    ensures r.widgets == st.widgets + 1
  {
    var history := if deleteLast then DropLast(st.history)
                   else st.history + [NewMessage(role, content, st.filename)];
    st.(history := history, widgets := st.widgets + 1)
  }

  /** `start_generation`: ignored while streaming or for a blank input;
      otherwise the stripped input is sent as a user message and an empty
      loading bubble waits for the answer. */
  function StartGeneration(st: ChatState): (r: ChatState)
    ensures Consistent(st) ==> Consistent(r)
  {
    if st.streaming then st
    else
      var text := Strip(st.input);
      if text == "" then st
      else AddMessage(st, "user", text, false).(input := "", streaming := true, loading := true, loadingText := "")
  }

  /** `update_output`: streamed text goes into the loading bubble. */
  function UpdateOutput(st: ChatState, text: string): (r: ChatState)
    ensures Consistent(st) ==> Consistent(r)
  {
    if st.loading then st.(loadingText := st.loadingText + text) else st
  }

  /** Every chunk of a stream, in order. */
  function Streamed(st: ChatState, chunks: seq<string>): ChatState
    decreases |chunks|
  {
    if chunks == [] then st else Streamed(UpdateOutput(st, chunks[0]), chunks[1..])
  }

  /** `on_stream_finished(success)`: a successful stream commits the
      bubble's text as the assistant's answer; streaming ends either way. */
  function OnStreamFinished(st: ChatState, success: bool): (r: ChatState)
    ensures Consistent(st) ==> Consistent(r)
    ensures !r.streaming
    ensures !success ==> r.history == st.history && r.widgets == st.widgets
  {
    var s := if success && st.loading
             then AddMessage(st.(loading := false, loadingText := ""), "assistant", st.loadingText, false)
             else st;
    s.(streaming := false)
  }

  /** `handle_error`: the bubble is replaced by an error widget and the last
      entry (the unanswered user message) is rolled back. */
  function HandleError(st: ChatState, message: string): (r: ChatState)
    ensures Consistent(st) ==> Consistent(r)
  {
    if st.loading
    then AddMessage(st.(loading := false, loadingText := ""), "assistant", "Error: " + message, true)
    else st
  }

  function Min(a: nat, b: nat): nat {
    if a < b then a else b
  }

  /** `clear_messages_after(index)`: the widgets from `index` on are removed
      and, when there were any, the history is cut to `[:index]`. */
  function ClearMessagesAfter(st: ChatState, index: nat): (r: ChatState)
    ensures Consistent(st) ==> Consistent(r)
  {
    var removed := if index < st.widgets then st.widgets - index else 0;
    if removed > 0 then st.(history := st.history[..Min(index, |st.history|)], widgets := st.widgets - removed)
    else st
  }

  /** `regenerate_response`: ignored while streaming or for a widget that is
      not shown; otherwise the messages from the widget on are cleared and
      a new answer is awaited. */
  function RegenerateResponse(st: ChatState, widget: Option<nat>): (r: ChatState)
    ensures Consistent(st) ==> Consistent(r)
  {
    if st.streaming then st
    else match widget
      case Some(k) =>
        if k < st.widgets
        then ClearMessagesAfter(st, k).(streaming := true, loading := true, loadingText := "")
        else st
      case None => st
  }

  /** `resubmit_edited_message`: clear from the edited widget on, put the
      new text in the input box and start a generation. */
  function ResubmitEditedMessage(st: ChatState, widget: Option<nat>, newContent: string): (r: ChatState)
    ensures Consistent(st) ==> Consistent(r)
    ensures (widget.None? || widget.value >= st.widgets) ==> r == st
  {
    match widget
    case Some(k) =>
      if k < st.widgets then StartGeneration(ClearMessagesAfter(st, k).(input := newContent)) else st
    case None => st
  }

  /** `clear_conversation`, once confirmed. */
  function ClearConversation(st: ChatState, confirmed: bool): (r: ChatState)
    ensures Consistent(st) ==> Consistent(r)
    ensures confirmed ==> r.history == [] && r.widgets == 0
  {
    if confirmed then st.(history := [], widgets := 0) else st
  }

  /** A stored message `load_initial_data` adds back: a dict with a string
      `role` and a string `content`. */
  predicate Loadable(m: Json) {
    m.JObject? && "role" in m.fields && m.fields["role"].JString?
    && "content" in m.fields && m.fields["content"].JString?
  }

  function LoadMessage(st: ChatState, m: Json): (r: ChatState)
    ensures Consistent(st) ==> Consistent(r)
  {
    if Loadable(m) then AddMessage(st, m.fields["role"].s, m.fields["content"].s, false) else st
  }

  /** The loop of `load_initial_data`, message by message. */
  function LoadMessages(st: ChatState, msgs: seq<Json>): (r: ChatState)
    ensures Consistent(st) ==> Consistent(r)
  {
    if msgs == [] then st else LoadMessage(LoadMessages(st, msgs[..|msgs| - 1]), msgs[|msgs| - 1])
  }

  /** `load_initial_data`: with a current image, the stored list is added
      back message by message. */
  function LoadInitialData(st: ChatState, stored: Json): (r: ChatState)
    ensures Consistent(st) ==> Consistent(r)
  {
    if st.filename != "" && stored.JArray? then LoadMessages(st, stored.items) else st
  }

  /** `load_chat_for_current_image`: clear the view and history, then load. */
  function LoadChatForImage(st: ChatState, stored: Json): (r: ChatState)
    ensures Consistent(r)
  {
    LoadInitialData(st.(history := [], widgets := 0), stored)
  }

  // ---------------------------------------------------------------------------
  // Navigation

  datatype Direction = Prev | Next | Other

  /** `image_list.index(filename)`. */
  function PositionOf(images: seq<string>, filename: string): (r: Option<nat>)
    ensures r.Some? ==> r.value < |images| && images[r.value] == filename
    ensures r.Some? ==> forall k :: 0 <= k < r.value ==> images[k] != filename
    ensures r.None? ==> filename !in images
  {
    if images == [] then None
    else if images[0] == filename then Some(0)
    else match PositionOf(images[1..], filename)
      case Some(k) => Some(k + 1)
      case None => None
  }

  /** The image `navigate_image` moves to, `None` when it stays: a given
      index is used as a Python index (negative counts from the end, out of
      range raises); otherwise one step in the direction, within bounds. */
  function NavigateTarget(count: nat, current: Option<nat>, direction: Direction, index: Option<int>): (r: Option<nat>)
    requires current.Some? ==> current.value < count
    ensures r.Some? ==> r.value < count
  {
    if count == 0 then None
    else match index
      case Some(i) =>
        if 0 <= i < count then Some(i as nat)
        else if -(count as int) <= i < 0 then Some((count + i) as nat)
        else None
      case None =>
        match current
        case None => None
        case Some(c) =>
          if direction == Prev && c > 0 then Some(c - 1)
          else if direction == Next && c + 1 < count then Some(c + 1)
          else None
  }

  /** Without an index, navigation moves by exactly one image or not at all. */
  lemma NavigateSteps(count: nat, c: nat, direction: Direction)
    requires c < count
    ensures var r := NavigateTarget(count, Some(c), direction, None);
            r.None? || r.value + 1 == c || r.value == c + 1
    ensures NavigateTarget(count, Some(c), Other, None).None?
  {
  }

  /** Next then previous comes back to the same image. */
  lemma NavigateBack(count: nat, c: nat)
    requires c + 1 < count
    ensures NavigateTarget(count, NavigateTarget(count, Some(c), Next, None), Prev, None) == Some(c)
  {
  }

  /** `navigate_image`: move to the target image and load its stored chat. */
  function NavigateImage(st: ChatState, images: seq<string>, direction: Direction, index: Option<int>,
                         storedChat: string -> Json): (r: ChatState)
    ensures Consistent(st) ==> Consistent(r)
  {
    match NavigateTarget(|images|, PositionOf(images, st.filename), direction, index)
    case None => st
    case Some(t) => LoadChatForImage(st.(filename := images[t]), storedChat(images[t]))
  }

  // ---------------------------------------------------------------------------
  // Properties of whole turns

  /** A generation starts exactly when nothing is streaming and the input is
      not blank; it then records the user message and clears the input. */
  lemma StartGenerationGuard(st: ChatState)
    ensures StartGeneration(st) != st <==> !st.streaming && Strip(st.input) != ""
    ensures !st.streaming && Strip(st.input) != "" ==>
              var r := StartGeneration(st);
              r.streaming && r.loading && r.input == ""
              && r.history == st.history + [NewMessage("user", Strip(st.input), st.filename)]
  {
  }

  /** Regeneration is ignored while a stream is running. */
  lemma RegenerateWhileStreaming(st: ChatState, widget: Option<nat>)
    requires st.streaming
    ensures RegenerateResponse(st, widget) == st
  {
  }

  /** When it removes a widget, clearing leaves the widgets before `index`
      and the history entries before it. */
  lemma ClearLeavesPrefix(st: ChatState, index: nat)
    requires Consistent(st)
    ensures var r := ClearMessagesAfter(st, index);
            && (r.widgets < st.widgets <==> index < st.widgets)
            && (r.widgets < st.widgets ==> r.widgets == index && r.history == st.history[..Min(index, |st.history|)])
            && (index <= |st.history| && index < st.widgets ==> |r.history| == index)
            && (r.widgets == st.widgets ==> r == st)
  {
  }

  /** Regenerating from a shown widget while idle cuts the widgets and the
      history at that widget and waits for a new answer in an empty bubble. */
  lemma RegenerateClears(st: ChatState, k: nat)
    requires !st.streaming && k < st.widgets
    ensures var r := RegenerateResponse(st, Some(k));
            && r.history == st.history[..Min(k, |st.history|)] && r.widgets == k
            && r.streaming && r.loading && r.loadingText == "" && r.input == st.input
  {
  }

  /** Resubmitting an edited message while idle cuts the conversation at the
      edited widget, sends the stripped new text as a user message in its
      place and starts a stream with an emptied input. */
  lemma ResubmitStartsTurn(st: ChatState, k: nat, newContent: string)
    requires k < st.widgets && !st.streaming && Strip(newContent) != ""
    ensures var r := ResubmitEditedMessage(st, Some(k), newContent);
            && r.history == st.history[..Min(k, |st.history|)] + [NewMessage("user", Strip(newContent), st.filename)]
            && r.widgets == k + 1
            && r.streaming && r.loading && r.loadingText == "" && r.input == ""
  {
  }

  /** While a stream runs, or when the new text is blank, resubmitting still
      cuts the conversation at the edited widget and leaves the new text in
      the input box, but no generation starts. */
  lemma ResubmitWithoutTurn(st: ChatState, k: nat, newContent: string)
    requires k < st.widgets && (st.streaming || Strip(newContent) == "")
    ensures var r := ResubmitEditedMessage(st, Some(k), newContent);
            && r.history == st.history[..Min(k, |st.history|)] && r.widgets == k
            && r.input == newContent
            && r.streaming == st.streaming && r.loading == st.loading && r.loadingText == st.loadingText
  {
  }

  /** A failed turn (`start_generation`, then `error`, then
      `finished(False)`) leaves the history as it was. */
  lemma FailedTurnRestoresHistory(st: ChatState, message: string)
    requires !st.streaming && Strip(st.input) != ""
    ensures var r := OnStreamFinished(HandleError(StartGeneration(st), message), false);
            r.history == st.history && !r.streaming && !r.loading && r.widgets == st.widgets + 2
  {
    var s1 := StartGeneration(st);
    assert s1.history == st.history + [NewMessage("user", Strip(st.input), st.filename)];
    assert DropLast(s1.history) == st.history;
  }

  /** Streaming into a shown bubble appends the chunks' text. */
  lemma {:induction false} StreamedText(st: ChatState, chunks: seq<string>)
    requires st.loading
    ensures Streamed(st, chunks) == st.(loadingText := st.loadingText + Concat(chunks))
    decreases |chunks|
  {
    if chunks != [] {
      StreamedText(UpdateOutput(st, chunks[0]), chunks[1..]);
      assert st.loadingText + chunks[0] + Concat(chunks[1..]) == st.loadingText + Concat(chunks);
    }
  }

  function Concat(chunks: seq<string>): string {
    if chunks == [] then "" else chunks[0] + Concat(chunks[1..])
  }

  /** A successful turn adds the user message and the assistant's answer,
      which is the streamed chunks put together. */
  lemma SuccessfulTurn(st: ChatState, chunks: seq<string>)
    requires !st.streaming && Strip(st.input) != ""
    ensures var r := OnStreamFinished(Streamed(StartGeneration(st), chunks), true);
            && r.history == st.history + [NewMessage("user", Strip(st.input), st.filename),
                                          Message("assistant", Concat(chunks), None)]
            && !r.streaming && !r.loading && r.widgets == st.widgets + 2
  {
    var s1 := StartGeneration(st);
    StreamedText(s1, chunks);
    assert s1.loadingText == "" && "" + Concat(chunks) == Concat(chunks);
  }

  // ---------------------------------------------------------------------------
  // Reloading a saved history

  /** How a history entry is written to the label file. */
  function MessageJson(m: Message): Json {
    JObject(map["role" := JString(m.role), "content" := JString(m.content),
                "image" := match m.image case Some(f) => JString(f) case None => JNull])
  }

  function HistoryJson(h: seq<Message>): (r: seq<Json>)
    ensures |r| == |h|
    ensures forall k :: 0 <= k < |h| ==> r[k] == MessageJson(h[k])
  {
    if h == [] then [] else [MessageJson(h[0])] + HistoryJson(h[1..])
  }

  /** An entry as `add_message` stored it for the image `filename`. */
  predicate StoredFor(m: Message, filename: string) {
    m == NewMessage(m.role, m.content, filename)
  }

  /** Loading a history saved for the same image gives the same history,
      with one widget per message. */
  lemma {:induction false} ReloadSavedHistory(st: ChatState, h: seq<Message>)
    requires st.filename != ""
    requires forall k :: 0 <= k < |h| ==> StoredFor(h[k], st.filename)
    ensures var r := LoadChatForImage(st, JArray(HistoryJson(h)));
            r.history == h && r.widgets == |h|
  {
    var cleared := st.(history := [], widgets := 0);
    ReloadMessages(cleared, h);
  }

  lemma {:induction false} ReloadMessages(st: ChatState, h: seq<Message>)
    requires forall k :: 0 <= k < |h| ==> StoredFor(h[k], st.filename)
    ensures var r := LoadMessages(st, HistoryJson(h));
            r.history == st.history + h && r.widgets == st.widgets + |h| && r.filename == st.filename
  {
    if h != [] {
      var init, m := h[..|h| - 1], h[|h| - 1];
      ReloadMessages(st, init);
      HistoryJsonLast(h);
      ReloadMessage(LoadMessages(st, HistoryJson(init)), m);
      SnocJoin(st.history, h);
    }
  }

  lemma HistoryJsonLast(h: seq<Message>)
    requires h != []
    ensures HistoryJson(h)[..|h| - 1] == HistoryJson(h[..|h| - 1])
    ensures HistoryJson(h)[|h| - 1] == MessageJson(h[|h| - 1])
  {
  }

  lemma SnocJoin(a: seq<Message>, h: seq<Message>)
    requires h != []
    ensures a + h[..|h| - 1] + [h[|h| - 1]] == a + h
  {
    assert h == h[..|h| - 1] + [h[|h| - 1]];
  }

  /** One saved message is added back as it was. */
  lemma ReloadMessage(st: ChatState, m: Message)
    requires StoredFor(m, st.filename)
    ensures LoadMessage(st, MessageJson(m)) == st.(history := st.history + [m], widgets := st.widgets + 1)
  {
    NewMessageIdempotent(m.role, m.content, st.filename);
    assert Loadable(MessageJson(m));
  }
}
