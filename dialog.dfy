/** `ChatbotDialog` as an object: the conversation fields and the methods
    that update them in place, each proved to make the transition the
    `Conversation` module defines. */
module Dialog {
  import opened JsonValues
  import opened Text
  import Conversation

  /** `ChatbotDialog`'s conversation fields and the methods that update them. */
  class ChatbotDialog {
    var history: seq<Conversation.Message>
    var streaming: bool
    var loading: bool
    var loadingText: string
    var widgets: nat
    var input: string
    var filename: string

    function State(): Conversation.ChatState
      reads this
    {
      Conversation.ChatState(history, streaming, loading, loadingText, widgets, input, filename)
    }

    /** An empty dialog on the image `filename`. */
    constructor(filename: string)
      ensures State() == Conversation.ChatState([], false, false, "", 0, "", filename)
    {
      history := [];
      streaming := false;
      loading := false;
      loadingText := "";
      widgets := 0;
      input := "";
      this.filename := filename;
    }

    /** The user edits the input box. */
    method SetInput(text: string)
      modifies this
      ensures State() == old(State()).(input := text)
    {
      input := text;
    }

    method AddMessage(role: string, content: string, deleteLast: bool)
      modifies this
      ensures State() == Conversation.AddMessage(old(State()), role, content, deleteLast)
    {
      var stored := content;
      var image: Option<string> := None;
      if role == "user" && (Conversation.MentionsImage(content)) {
        stored := Strip(Conversation.RewriteImageTags(content));
        if filename != "" {
          image := Some(filename);
        }
      }
      widgets := widgets + 1;
      if deleteLast {
        history := if history == [] then [] else history[..|history| - 1];
      } else {
        history := history + [Conversation.Message(role, stored, image)];
      }
    }

    method StartGeneration()
      modifies this
      ensures State() == Conversation.StartGeneration(old(State()))
    {
      if streaming {
        return;
      }
      var text := Strip(input);
      if text == "" {
        return;
      }
      AddMessage("user", text, false);
      input := "";
      streaming := true;
      loading := true;
      loadingText := "";
    }

    method UpdateOutput(text: string)
      modifies this
      ensures State() == Conversation.UpdateOutput(old(State()), text)
    {
      if loading {
        loadingText := loadingText + text;
      }
    }

    method OnStreamFinished(success: bool)
      modifies this
      ensures State() == Conversation.OnStreamFinished(old(State()), success)
    {
      if success && loading {
        var finalText := loadingText;
        loading := false;
        loadingText := "";
        AddMessage("assistant", finalText, false);
      }
      streaming := false;
    }

    method HandleError(message: string)
      modifies this
      ensures State() == Conversation.HandleError(old(State()), message)
    {
      if loading {
        loading := false;
        loadingText := "";
        AddMessage("assistant", "Error: " + message, true);
      }
    }

    method ClearMessagesAfter(index: nat)
      modifies this
      ensures State() == Conversation.ClearMessagesAfter(old(State()), index)
    {
      var removed := 0;
      var i := 0;
      while i < widgets
        invariant i <= widgets
        invariant removed == if index < i then i - index else 0
      {
        if i >= index {
          removed := removed + 1;
        }
        i := i + 1;
      }
      if removed > 0 {
        history := history[..Conversation.Min(index, |history|)];
        widgets := widgets - removed;
      }
    }

    method RegenerateResponse(widget: Option<nat>)
      modifies this
      ensures State() == Conversation.RegenerateResponse(old(State()), widget)
    {
      if streaming {
        return;
      }
      if widget.Some? && widget.value < widgets {
        ClearMessagesAfter(widget.value);
        streaming := true;
        loading := true;
        loadingText := "";
      }
    }

    method ResubmitEditedMessage(widget: Option<nat>, newContent: string)
      modifies this
      ensures State() == Conversation.ResubmitEditedMessage(old(State()), widget, newContent)
    {
      if widget.Some? && widget.value < widgets {
        ClearMessagesAfter(widget.value);
        input := newContent;
        StartGeneration();
      }
    }

    method ClearConversation(confirmed: bool)
      modifies this
      ensures State() == Conversation.ClearConversation(old(State()), confirmed)
    {
      if confirmed {
        widgets := 0;
        history := [];
      }
    }

    method LoadInitialData(stored: Json)
      modifies this
      ensures State() == Conversation.LoadInitialData(old(State()), stored)
    {
      if filename != "" && stored.JArray? {
        var msgs := stored.items;
        var i := 0;
        while i < |msgs|
          invariant i <= |msgs|
          invariant State() == Conversation.LoadMessages(old(State()), msgs[..i])
        {
          assert msgs[..i + 1][..i] == msgs[..i];
          var m := msgs[i];
          if m.JObject? && "role" in m.fields && "content" in m.fields
             && m.fields["role"].JString? && m.fields["content"].JString? {
            AddMessage(m.fields["role"].s, m.fields["content"].s, false);
          }
          i := i + 1;
        }
        assert msgs[..i] == msgs;
      }
    }

    method NavigateImage(images: seq<string>, direction: Conversation.Direction, index: Option<int>, storedChat: string -> Json)
      modifies this
      ensures State() == Conversation.NavigateImage(old(State()), images, direction, index, storedChat)
    {
      var target := Conversation.NavigateTarget(|images|, Conversation.PositionOf(images, filename), direction, index);
      if target.Some? {
        filename := images[target.value];
        widgets := 0;
        history := [];
        LoadInitialData(storedChat(filename));
      }
    }
  }
}
