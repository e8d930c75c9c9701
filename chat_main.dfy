/** The main chat window `ChatMain` of the two latest generations: the
    transcript it shows and saves, the streaming state of the reply being
    received, and the operations that send, edit, delete and regenerate
    messages and replay the transcript into the client. The two versions
    differ only in how a sent message is stored: one replaces newlines by
    HTML breaks, the other keeps the stripped text; `normalizesInput` says
    which one an object is. Qt widgets are reduced to the values they hold. */
module ChatMain {
  import opened Text
  import opened Messages
  import opened Transcript
  import opened Files
  import opened ChatLog
  import opened Gen3Client

  /** `Bot Description.json` of a persona folder. */
  datatype BotDescription = BotDescription(name: string, description: string, workflowPath: string)

  /** How `load_chat` ends: nothing to open, a complete load, or the
      exception it raises part-way: reading a missing chat file (`None`
      subscripted), a null bot folder (`None + str`), or a missing bot
      description. */
  datatype LoadOutcome = NothingToLoad | Loaded | ChatUnreadable | NoBotFolder | BotUnreadable

  class ChatMain {
    /** True for the version that stores `<br/>` for newlines. */
    const normalizesInput: bool
    const client: LLMClient
    /** The `Save/.temp.json` log and the file system. */
    const logs: Logs
    const disk: Disk

    var chatMarkdown: seq<Entry>
    /** The open chat file; None until one is loaded. */
    var chatPath: Option<string>
    /** The chat name field. */
    var chatName: string
    var botPath: Option<string>
    var botName: string
    /** Whether a reply is being received (`response_cursor is not None`). */
    var responsePending: bool
    var currentResponse: string
    var responseStartTime: real
    /** The items of the side list. */
    var chatListItems: seq<string>

    /** The window of `Code/Widgets/chatMain.py`. */
    constructor Normalizing(logs: Logs, disk: Disk, now: real)
      ensures normalizesInput && this.logs == logs && this.disk == disk
      ensures fresh(client) && client.preset == "" && client.messages == [] && client.payloadMessages == []
      ensures chatMarkdown == [] && chatPath == None && botPath == None && botName == ""
      ensures !responsePending && currentResponse == "" && responseStartTime == now
    {
      normalizesInput := true;
      client := new LLMClient();
      this.logs := logs;
      this.disk := disk;
      chatMarkdown := [];
      chatPath := None;
      chatName := "";
      botPath := None;
      botName := "";
      responsePending := false;
      currentResponse := "";
      responseStartTime := now;
      chatListItems := [];
    }

    /** The window of `Widgets/chatMain.py`. */
    constructor Plain(logs: Logs, disk: Disk, now: real)
      ensures !normalizesInput && this.logs == logs && this.disk == disk
      ensures fresh(client) && client.preset == "" && client.messages == [] && client.payloadMessages == []
      ensures chatMarkdown == [] && chatPath == None && botPath == None && botName == ""
      ensures !responsePending && currentResponse == "" && responseStartTime == now
    {
      normalizesInput := false;
      client := new LLMClient();
      this.logs := logs;
      this.disk := disk;
      chatMarkdown := [];
      chatPath := None;
      chatName := "";
      botPath := None;
      botName := "";
      responsePending := false;
      currentResponse := "";
      responseStartTime := now;
      chatListItems := [];
    }

    /** The text stored and sent for a stripped, non-blank input. */
    function StoredText(text: string): string
    {
      if normalizesInput then NormalizeNewlines(text) else text
    }

    /** The record `save_chat` writes. */
    function SavedRecord(): ChatRecord
      reads this, client
    {
      ChatRecord(chatName, botPath, client.temperature, client.modelName, chatMarkdown, client.ExportPayload())
    }

    /** The file system after `save_chat` from `nodes`: unchanged while no
        chat is open. */
    function AfterSave(nodes: map<string, Node>): map<string, Node>
      reads this, client
    {
      if chatPath.None? || chatPath.value == "" then nodes
      else Written(nodes, chatPath.value, SavedRecord())
    }

    /** `save_chat`: the record goes to the open chat file; a failed write
        is reported and ignored. */
    method SaveChat()
      modifies disk`nodes
      ensures disk.nodes == AfterSave(old(disk.nodes))
    {
      if chatPath.None? || chatPath.value == "" {
        return;
      }
      var _ := disk.Write(chatPath.value, SavedRecord());
    }

    /** `sendMessage`: a blank input changes nothing; otherwise the stripped
        (and, in one version, normalised) text is appended as a user entry,
        goes to the client, and a reply is requested. */
    method SendMessage(input: string, now: real)
      modifies this`chatMarkdown, this`responsePending, this`currentResponse, this`responseStartTime
      modifies client`messages, client`payloadMessages, client`events, client`abortFlag,
               client`currentResponse, client`requestsStarted
      ensures Blank(input) ==> unchanged(this) && unchanged(client)
      ensures !Blank(input) ==>
        var text := StoredText(Strip(input));
        && chatMarkdown == old(chatMarkdown) + [Entry(User, text, now, None)]
        && client.messages == old(client.messages) + [Msg(User, text)]
        && client.payloadMessages == old(client.payloadMessages) + [Msg(User, text)]
        && responsePending && currentResponse == "" && responseStartTime == now
        && Generated(client)
      ensures !Blank(input) && normalizesInput ==> '\n' !in chatMarkdown[|chatMarkdown| - 1].content
      ensures !Blank(input) ==> chatMarkdown[|chatMarkdown| - 1].content != ""
    {
      var text := Strip(input);
      StripShape(input);
      if text == "" {
        return;
      }
      if normalizesInput {
        text := NormalizeNewlines(text);
        NormalizedHasNoNewline(Strip(input));
        NormalizeKeepsNonEmpty(Strip(input));
      }
      chatMarkdown := chatMarkdown + [Entry(User, text, now, None)];
      responseStartTime := now;
      Request(text);
    }

    /** `on_token`: ignored unless a reply is pending. */
    method OnToken(text: string)
      modifies this`currentResponse
      ensures currentResponse == if responsePending then old(currentResponse) + text else old(currentResponse)
    {
      if !responsePending {
        return;
      }
      currentResponse := currentResponse + text;
    }

    /** `on_done`: ignored unless a reply is pending; otherwise exactly one
        assistant entry with the full text and its response time is
        appended, the pending state is cleared and the chat is saved. */
    method OnDone(fullText: string, now: real)
      modifies this`chatMarkdown, this`responsePending, this`currentResponse, disk`nodes
      ensures !old(responsePending) ==> unchanged(this) && unchanged(disk)
      ensures old(responsePending) ==>
        && chatMarkdown == old(chatMarkdown) + [Entry(Assistant, fullText, now, Some(now - responseStartTime))]
        && !responsePending && currentResponse == ""
        && disk.nodes == AfterSave(old(disk.nodes))
    {
      if !responsePending {
        return;
      }
      chatMarkdown := chatMarkdown + [Entry(Assistant, fullText, now, Some(now - responseStartTime))];
      responsePending := false;
      currentResponse := "";
      SaveChat();
    }

    /** `get_last_user_message`. */
    method GetLastUserMessage() returns (r: Option<string>)
      ensures r.Some? <==> exists k :: 0 <= k < |chatMarkdown| && chatMarkdown[k].role == User
      ensures r.Some? ==> exists k :: 0 <= k < |chatMarkdown| && chatMarkdown[k].role == User
                                      && chatMarkdown[k].content == r.value
                                      && forall j :: k < j < |chatMarkdown| ==> chatMarkdown[j].role != User
    {
      var idx := FindLastUser(chatMarkdown);
      if idx.None? {
        return None;
      }
      return Some(chatMarkdown[idx.value].content);
    }

    /** `_rebuild_llm_context`: the client's payload becomes the preset entry
        (when set) followed by every transcript entry's role and content. */
    method RebuildLlmContext()
      modifies client`payloadMessages
      ensures client.payloadMessages == WithPreset(client.preset, Replay(chatMarkdown))
    {
      client.payloadMessages := [];
      if client.preset != "" {
        client.payloadMessages := client.payloadMessages + [Msg(System, client.preset)];
      }
      var k := 0;
      while k < |chatMarkdown|
        invariant 0 <= k <= |chatMarkdown|
        invariant client.payloadMessages == WithPreset(client.preset, Replay(chatMarkdown[..k]))
      {
        ReplaySnoc(chatMarkdown, k);
        AppendAssoc(if client.preset != "" then [Msg(System, client.preset)] else [],
                    Replay(chatMarkdown[..k]), [ToMsg(chatMarkdown[k])]);
        client.payloadMessages := client.payloadMessages + [Msg(chatMarkdown[k].role, chatMarkdown[k].content)];
        k := k + 1;
      }
      assert chatMarkdown[..k] == chatMarkdown;
    }

    /** The request that ends sending, editing and regenerating: a reply is
        marked pending with an empty accumulator, the text goes to the
        client as a user message, and a reply is generated. */
    method Request(text: string)
      modifies this`responsePending, this`currentResponse
      modifies client`messages, client`payloadMessages, client`events, client`abortFlag,
               client`currentResponse, client`requestsStarted
      ensures responsePending && currentResponse == ""
      ensures client.messages == old(client.messages) + [Msg(User, text)]
      ensures client.payloadMessages == old(client.payloadMessages) + [Msg(User, text)]
      ensures Generated(client)
    {
      responsePending := true;
      currentResponse := "";
      client.AddUserMessage(text);
      client.Generate();
    }

    /** Pops the assistant entry directly after entry `u`, if there is one. */
    method PopReplyAfter(u: nat)
      requires u < |chatMarkdown|
      modifies this`chatMarkdown
      ensures chatMarkdown == PopReply(old(chatMarkdown), u)
    {
      if u + 1 < |chatMarkdown| && chatMarkdown[u + 1].role == Assistant {
        chatMarkdown := chatMarkdown[..u + 1] + chatMarkdown[u + 2..];
      }
    }

    /** `edit_last_user_message`: with a non-blank text and a user entry, the
        last user entry takes the text, the reply after it is dropped, the
        payload is replayed from the transcript and the text is then sent
        once more, and the chat is saved. */
    method EditLastUserMessage(newText: string, now: real)
      modifies this`chatMarkdown, this`responsePending, this`currentResponse, this`responseStartTime
      modifies client`messages, client`payloadMessages, client`events, client`abortFlag,
               client`currentResponse, client`requestsStarted
      modifies disk`nodes
      ensures Blank(newText) || LastUserIndex(old(chatMarkdown)).None? ==>
        unchanged(this) && unchanged(client) && unchanged(disk)
      ensures !Blank(newText) && LastUserIndex(old(chatMarkdown)).Some? ==>
        var text := Strip(newText);
        && chatMarkdown == AfterEdit(old(chatMarkdown), LastUserIndex(old(chatMarkdown)).value, text, now)
        && client.payloadMessages == WithPreset(client.preset, Replay(chatMarkdown)) + [Msg(User, text)]
        && client.messages == old(client.messages) + [Msg(User, text)]
        && responsePending && currentResponse == "" && responseStartTime == now
        && Generated(client)
        && disk.nodes == AfterSave(old(disk.nodes))
    {
      var text := Strip(newText);
      StripShape(newText);
      if text == "" {
        return;
      }
      var idx := FindLastUser(chatMarkdown);
      if idx.None? {
        return;
      }
      ReviseEntry(idx.value, text, now);
      SaveChat();
    }

    /** `edit_last_user_message` once entry `u` is chosen, up to the save. */
    method ReviseEntry(u: nat, text: string, now: real)
      requires u < |chatMarkdown|
      modifies this`chatMarkdown, this`responsePending, this`currentResponse, this`responseStartTime
      modifies client`messages, client`payloadMessages, client`events, client`abortFlag,
               client`currentResponse, client`requestsStarted
      ensures chatMarkdown == AfterEdit(old(chatMarkdown), u, text, now)
      ensures client.payloadMessages == WithPreset(client.preset, Replay(chatMarkdown)) + [Msg(User, text)]
      ensures client.messages == old(client.messages) + [Msg(User, text)]
      ensures responsePending && currentResponse == "" && responseStartTime == now
      ensures Generated(client)
    {
      EditInPlace(chatMarkdown, u, text, now);
      PopReplyAfter(u);
      chatMarkdown := chatMarkdown[u := chatMarkdown[u].(content := text, ts := now)];
      RebuildLlmContext();
      responseStartTime := now;
      Request(text);
    }

    /** `delete_last_user_exchange`: without a user entry nothing changes;
        otherwise the last user entry and the reply directly after it go,
        the payload is replayed and the chat is saved. */
    method DeleteLastUserExchange()
      modifies this`chatMarkdown, client`payloadMessages, disk`nodes
      ensures LastUserIndex(old(chatMarkdown)).None? ==>
        unchanged(this) && unchanged(client) && unchanged(disk)
      ensures LastUserIndex(old(chatMarkdown)).Some? ==>
        && chatMarkdown == AfterDelete(old(chatMarkdown), LastUserIndex(old(chatMarkdown)).value)
        && client.payloadMessages == WithPreset(client.preset, Replay(chatMarkdown))
        && disk.nodes == AfterSave(old(disk.nodes))
    {
      var idx := FindLastUser(chatMarkdown);
      if idx.None? {
        return;
      }
      var u := idx.value;
      DeleteInPlace(chatMarkdown, u);
      PopReplyAfter(u);
      chatMarkdown := chatMarkdown[..u] + chatMarkdown[u + 1..];
      RebuildLlmContext();
      SaveChat();
    }

    /** `regenerate_last_response`: on an empty transcript nothing happens;
        otherwise a trailing reply is popped first, and only then is the
        last user entry looked for. When there is one, the payload is
        replayed and its text sent once more, without a new transcript
        entry, a new start time or a save. */
    method RegenerateLastResponse()
      modifies this`chatMarkdown, this`responsePending, this`currentResponse
      modifies client`messages, client`payloadMessages, client`events, client`abortFlag,
               client`currentResponse, client`requestsStarted
      ensures old(chatMarkdown) == [] ==> unchanged(this) && unchanged(client)
      ensures old(chatMarkdown) != [] ==> chatMarkdown == DropTrailingAssistant(old(chatMarkdown))
      ensures old(chatMarkdown) != [] && LastUserIndex(chatMarkdown).None? ==>
        && responsePending == old(responsePending) && currentResponse == old(currentResponse)
        && unchanged(client)
      ensures old(chatMarkdown) != [] && LastUserIndex(chatMarkdown).Some? ==>
        var prompt := chatMarkdown[LastUserIndex(chatMarkdown).value].content;
        && client.payloadMessages == WithPreset(client.preset, Replay(chatMarkdown)) + [Msg(User, prompt)]
        && client.messages == old(client.messages) + [Msg(User, prompt)]
        && responsePending && currentResponse == ""
        && Generated(client)
    {
      if chatMarkdown == [] {
        return;
      }
      if chatMarkdown[|chatMarkdown| - 1].role == Assistant {
        chatMarkdown := chatMarkdown[..|chatMarkdown| - 1];
      }
      ResendLastUser();
    }

    /** The rest of `regenerate_last_response` once a trailing reply is
        popped: without a user entry nothing happens; otherwise the payload
        is rebuilt from the transcript and the last user text is sent. */
    method ResendLastUser()
      modifies this`responsePending, this`currentResponse
      modifies client`messages, client`payloadMessages, client`events, client`abortFlag,
               client`currentResponse, client`requestsStarted
      ensures LastUserIndex(chatMarkdown).None? ==> unchanged(this) && unchanged(client)
      ensures LastUserIndex(chatMarkdown).Some? ==>
        var prompt := chatMarkdown[LastUserIndex(chatMarkdown).value].content;
        && client.payloadMessages == WithPreset(client.preset, Replay(chatMarkdown)) + [Msg(User, prompt)]
        && client.messages == old(client.messages) + [Msg(User, prompt)]
        && responsePending && currentResponse == ""
        && Generated(client)
    {
      var idx := FindLastUser(chatMarkdown);
      if idx.None? {
        return;
      }
      Resend(chatMarkdown[idx.value].content);
    }

    /** The payload is rebuilt from the transcript, then `prompt` is sent
        without a new transcript entry. */
    method Resend(prompt: string)
      modifies this`responsePending, this`currentResponse
      modifies client`messages, client`payloadMessages, client`events, client`abortFlag,
               client`currentResponse, client`requestsStarted
      ensures client.payloadMessages == WithPreset(client.preset, Replay(chatMarkdown)) + [Msg(User, prompt)]
      ensures client.messages == old(client.messages) + [Msg(User, prompt)]
      ensures responsePending && currentResponse == ""
      ensures Generated(client)
    {
      RebuildLlmContext();
      Request(prompt);
    }

    /** The side list refill of `load_chat`: the new-chat item, then the chat
        names from the newest. */
    method FillChatList()
      modifies this`chatListItems
      ensures chatListItems == Display(logs.chatList)
    {
      chatListItems := [NewChatItem];
      var names := logs.chatList;
      var k := 0;
      while k < |names|
        invariant 0 <= k <= |names|
        invariant chatListItems == [NewChatItem] + Reversed(names)[..k]
      {
        assert Reversed(names)[..k + 1] == Reversed(names)[..k] + [names[|names| - 1 - k]];
        chatListItems := chatListItems + [names[|names| - 1 - k]];
        k := k + 1;
      }
      assert Reversed(names)[..k] == Reversed(names);
    }

    /** `load_chat(path)`, up to the display of the transcript: an empty path
        opens the first chat file found (`firstJson`), or nothing. The open
        path and `LastChat` are set before the file is known to be readable,
        and a file that cannot be read ends the load there. */
    method LoadChat(path: string, firstJson: Option<string>, bot: Option<BotDescription>)
      returns (outcome: LoadOutcome)
      modifies this`chatPath, this`chatName, this`chatMarkdown, this`botPath, this`botName, this`chatListItems
      modifies logs`lastChat, logs`chatList
      modifies client`preset, client`modelName, client`messages, client`payloadMessages, client`temperature
      ensures path == "" && firstJson.None? <==> outcome == NothingToLoad
      ensures outcome == NothingToLoad ==> unchanged(this) && unchanged(logs) && unchanged(client)
      ensures outcome != NothingToLoad ==>
        var p := if path == "" then firstJson.value else path;
        && chatPath == Some(p) && logs.lastChat == p
        && (outcome == ChatUnreadable <==> disk.ReadChat(p).None?)
        && (disk.ReadChat(p).None? ==>
              && chatName == old(chatName) && chatMarkdown == old(chatMarkdown)
              && botPath == old(botPath) && botName == old(botName)
              && chatListItems == old(chatListItems)
              && logs.chatList == old(logs.chatList) && unchanged(client))
        && (disk.ReadChat(p).Some? ==> Opened(p, disk.ReadChat(p).value, bot, outcome))
    {
      var p := path;
      if p == "" {
        if firstJson.None? {
          return NothingToLoad;
        }
        p := firstJson.value;
      }
      chatPath := Some(p);
      var hist := disk.ReadChat(p);
      logs.SetLastChat(p);
      if hist.None? {
        return ChatUnreadable;
      }
      outcome := OpenRecord(p, hist.value, bot);
    }

    /** What `load_chat` does with the record `rec` read from `p`: the name
        and transcript are shown and the stem moves to the end of the chat
        list; a null bot folder ends the load, so does a missing bot
        description; otherwise the bot is applied (`BotApplied`). */
    twostate predicate Opened(p: string, rec: ChatRecord, bot: Option<BotDescription>, outcome: LoadOutcome)
      reads this, logs, client
    {
      && chatName == rec.name && chatMarkdown == rec.chat
      && logs.chatList == Touched(old(logs.chatList), Stem(p))
      && (outcome == NoBotFolder <==> rec.botPath.None?)
      && (rec.botPath.None? ==>
            && botPath == old(botPath) && botName == old(botName)
            && chatListItems == old(chatListItems) && unchanged(client))
      && (rec.botPath.Some? ==>
            && botPath == rec.botPath
            && (outcome == BotUnreadable <==> bot.None?)
            && (bot.None? ==>
                  botName == old(botName) && chatListItems == old(chatListItems) && unchanged(client))
            && (bot.Some? ==> outcome == Loaded && BotApplied(rec, bot.value)))
    }

    /** The end of a complete load: the description sets the preset, the
        saved model, payload and temperature go to the client, and the side
        list is refilled. */
    predicate BotApplied(rec: ChatRecord, bot: BotDescription)
      reads this, logs, client
    {
      && client.modelName == rec.model && client.temperature == rec.temperature
      && botName == bot.name
      && client.Imported(Strip(bot.description), rec.payload)
      && chatListItems == Display(logs.chatList)
    }

    /** `load_chat` after the chat file has been read. */
    method OpenRecord(p: string, rec: ChatRecord, bot: Option<BotDescription>) returns (outcome: LoadOutcome)
      modifies this`chatName, this`chatMarkdown, this`botPath, this`botName, this`chatListItems
      modifies logs`chatList
      modifies client`preset, client`modelName, client`messages, client`payloadMessages, client`temperature
      ensures Opened(p, rec, bot, outcome)
    {
      ShowRecord(p, rec);
      if rec.botPath.None? {
        return NoBotFolder;
      }
      botPath := rec.botPath;
      if bot.None? {
        return BotUnreadable;
      }
      ApplyBot(rec, bot.value);
      return Loaded;
    }

    /** The first part of `load_chat` after the read: the record's name and
        transcript are shown and the file's stem moves to the end of the
        chat list. */
    method ShowRecord(p: string, rec: ChatRecord)
      modifies this`chatName, this`chatMarkdown, logs`chatList
      ensures chatName == rec.name && chatMarkdown == rec.chat
      ensures logs.chatList == Touched(old(logs.chatList), Stem(p))
    {
      chatName := rec.name;
      chatMarkdown := rec.chat;
      logs.Touch(Stem(p));
    }

    /** `load_chat` once the bot description has been read. */
    method ApplyBot(rec: ChatRecord, bot: BotDescription)
      modifies this`botName, this`chatListItems
      modifies client`preset, client`modelName, client`messages, client`payloadMessages, client`temperature
      ensures BotApplied(rec, bot)
    {
      client.SetPreset(bot.description);
      botName := bot.name;
      client.SetModel(rec.model);
      client.ImportPayload(rec.payload);
      client.temperature := rec.temperature;
      FillChatList();
    }
  }

  /** After an edit the payload holds the new text twice: once replayed
      from the edited transcript entry, once appended as the new request. */
  lemma EditSendsUserTextTwice(preset: string, t: seq<Entry>, u: nat, text: string, now: real)
    requires LastUserIndex(t) == Some(u)
    ensures var r := WithPreset(preset, Replay(AfterEdit(t, u, text, now))) + [Msg(User, text)];
      && PresetLength(preset) + u < |r| - 1
      && r[PresetLength(preset) + u] == Msg(User, text)
      && r[|r| - 1] == Msg(User, text)
  {
    EditChangesOnlyLastExchange(t, u, text, now);
  }

  /** After a regenerate the payload ends with the last user text twice
      when the transcript ends with that user entry. */
  lemma RegenerateSendsUserTextTwice(preset: string, t: seq<Entry>)
    requires t != [] && t[|t| - 1].role == User
    ensures var r := WithPreset(preset, Replay(t)) + [Msg(User, t[|t| - 1].content)];
      |r| >= 2 && r[|r| - 2] == r[|r| - 1] == Msg(User, t[|t| - 1].content)
  {
  }

  /** A rebuilt payload already starts with the preset entry, and building
      the request prepends it once more: a short conversation is sent with
      the preset twice. */
  lemma RebuiltPayloadRepeatsPreset(preset: string, t: seq<Entry>, summarize: Summarizer)
    requires preset != "" && |t| < SummaryTriggerCount
    ensures var r := BuildPayload(preset, WithPreset(preset, Replay(t)), summarize);
      r.Some? && |r.value| == |t| + 2 && r.value[0] == r.value[1] == Msg(System, preset)
  {
  }

  /** Replaying one more entry appends its pair. */
  lemma ReplaySnoc(t: seq<Entry>, k: nat)
    requires k < |t|
    ensures Replay(t[..k + 1]) == Replay(t[..k]) + [ToMsg(t[k])]
  {
    assert t[..k + 1][..k] == t[..k];
  }

  /** Normalising a non-empty text never yields the empty text. */
  lemma NormalizeKeepsNonEmpty(s: string)
    requires s != ""
    ensures NormalizeNewlines(s) != ""
  {
    assert UnescapeNewlines(s) != "";
  }
}
