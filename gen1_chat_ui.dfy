/** The first generation's stand-alone `ChatWindow`: it keeps one message
    list of its own, streams replies on a worker thread whose `token` and
    `done` signals the window consumes, compacts the list once a reply is
    finished, and edits, deletes, saves and loads the conversation. HTTP is
    replaced by its inputs (a summariser that may fail, the response body
    lines, a JSON oracle), and the file dialogs by the path they return. */
module Gen1ChatUi {
  import opened Text
  import opened Messages
  import opened Sse

  const MaxContextMessages := 16
  const SummaryTriggerCount := 24
  const SummaryPrefix := "Conversation summary:\n"

  /** `summarize_messages`: the summary text, or None when it raised. */
  type Summarizer = seq<Msg> -> Option<string>

  /** `get_context_messages`: the list itself below the trigger count; from
      24 entries on, a system entry with the prefixed summary of all but the
      last sixteen followed by those sixteen, or only the sixteen when the
      summariser raised. */
  function ContextMessages(ms: seq<Msg>, summarize: Summarizer): (r: seq<Msg>)
    ensures |ms| < SummaryTriggerCount ==> r == ms
    ensures |ms| >= SummaryTriggerCount ==> |r| >= MaxContextMessages && r[|r| - MaxContextMessages..] == ms[|ms| - MaxContextMessages..]
  {
    if |ms| < SummaryTriggerCount then ms
    else
      var recent := ms[|ms| - MaxContextMessages..];
      match summarize(ms[..|ms| - MaxContextMessages])
      case None => recent
      case Some(s) => [Msg(System, SummaryPrefix + s)] + recent
  }

  /** Compaction never fails: at 24 entries or more the context holds the
      summary entry exactly when the summariser answered, and is then below
      the trigger count. */
  lemma CompactionFallsBack(ms: seq<Msg>, summarize: Summarizer)
    requires |ms| >= SummaryTriggerCount
    ensures var r := ContextMessages(ms, summarize);
      var s := summarize(ms[..|ms| - MaxContextMessages]);
      && |r| < SummaryTriggerCount
      && (s.None? ==> r == ms[|ms| - MaxContextMessages..])
      && (s.Some? ==> |r| == MaxContextMessages + 1 && r[0] == Msg(System, SummaryPrefix + s.value))
  {
  }

  /** The indices of the user and assistant entries, in order: what
      `refresh_chat_display` records in `display_map`. */
  function ChatIndices(ms: seq<Msg>): seq<nat>
    decreases |ms|
  {
    if ms == [] then []
    else ChatIndices(ms[..|ms| - 1]) + (if IsChatRole(ms[|ms| - 1]) then [|ms| - 1] else [])
  }

  /** Every entry of the display map points at a user or assistant entry. */
  lemma {:induction false} ChatIndicesSound(ms: seq<Msg>)
    ensures forall j :: 0 <= j < |ChatIndices(ms)| ==>
      ChatIndices(ms)[j] < |ms| && IsChatRole(ms[ChatIndices(ms)[j]])
    decreases |ms|
  {
    if ms != [] {
      var n := |ms| - 1;
      var init := ms[..n];
      ChatIndicesSound(init);
      var r0, r := ChatIndices(init), ChatIndices(ms);
      assert r == r0 + (if IsChatRole(ms[n]) then [n] else []);
      forall j | 0 <= j < |r|
        ensures r[j] < |ms| && IsChatRole(ms[r[j]])
      {
        if j < |r0| {
          assert r[j] == r0[j] && init[r0[j]] == ms[r0[j]];
        }
      }
    }
  }

  /** Every user and assistant entry appears in the display map. */
  lemma {:induction false} ChatIndicesComplete(ms: seq<Msg>)
    ensures forall k :: 0 <= k < |ms| && IsChatRole(ms[k]) ==> k in ChatIndices(ms)
    decreases |ms|
  {
    if ms != [] {
      var n := |ms| - 1;
      var init := ms[..n];
      ChatIndicesComplete(init);
      var r0, r := ChatIndices(init), ChatIndices(ms);
      assert r == r0 + (if IsChatRole(ms[n]) then [n] else []);
      forall k | 0 <= k < |ms| && IsChatRole(ms[k])
        ensures k in r
      {
        if k < n {
          assert init[k] == ms[k];
          assert k in r0;
        } else {
          assert r == r0 + [n];
          assert r[|r0|] == n;
        }
      }
    }
  }

  /** The display map is strictly increasing, so it lists each entry once
      and in conversation order. */
  lemma {:induction false} ChatIndicesIncreasing(ms: seq<Msg>)
    ensures forall j, j' :: 0 <= j < j' < |ChatIndices(ms)| ==>
      ChatIndices(ms)[j] < ChatIndices(ms)[j']
    decreases |ms|
  {
    if ms != [] {
      var n := |ms| - 1;
      var init := ms[..n];
      ChatIndicesIncreasing(init);
      ChatIndicesSound(init);
      var r0, r := ChatIndices(init), ChatIndices(ms);
      assert r == r0 + (if IsChatRole(ms[n]) then [n] else []);
      forall j, j' | 0 <= j < j' < |r|
        ensures r[j] < r[j']
      {
        if j' < |r0| {
          assert r[j] == r0[j] && r[j'] == r0[j'];
        } else {
          assert r0[j] < |init|;
          assert r[j] == r0[j] < n == r[j'];
        }
      }
    }
  }

  /** A loaded file: unreadable (an open or decode error), JSON that is not
      a list, or a list of objects, each with its keys and values. */
  datatype Loaded = Unreadable | NotAList | Entries(items: seq<map<string, string>>)

  /** What `load_chat_manual` did: the dialog was cancelled, the file was
      refused, or its entries replaced the conversation. */
  datatype LoadOutcome = Cancelled | Refused | Replaced

  /** Every entry has both `role` and `content`. */
  predicate WellFormed(items: seq<map<string, string>>)
  {
    forall i :: 0 <= i < |items| ==> "role" in items[i] && "content" in items[i]
  }

  /** The messages a well-formed list of entries stands for. */
  function ToMsgs(items: seq<map<string, string>>): (r: seq<Msg>)
    requires WellFormed(items)
    ensures |r| == |items|
    ensures forall i :: 0 <= i < |items| ==> r[i] == Msg(items[i]["role"], items[i]["content"])
  {
    seq(|items|, i requires 0 <= i < |items| => Msg(items[i]["role"], items[i]["content"]))
  }

  /** What `save_chat_manual` writes: one object per message. */
  function Dumped(ms: seq<Msg>): (r: seq<map<string, string>>)
    ensures |r| == |ms|
  {
    seq(|ms|, i requires 0 <= i < |ms| => map["role" := ms[i].role, "content" := ms[i].content])
  }

  /** Loading a saved conversation passes the validation and gives back
      exactly the saved messages. */
  lemma SaveLoadRoundTrip(ms: seq<Msg>)
    ensures WellFormed(Dumped(ms)) && ToMsgs(Dumped(ms)) == ms
  {
    var d := Dumped(ms);
    assert forall i :: 0 <= i < |ms| ==> d[i] == map["role" := ms[i].role, "content" := ms[i].content];
  }

  /** Deleting the last prompt right after an exchange that did not trigger
      compaction gives back the conversation as it was before the prompt. */
  lemma DeleteUndoesExchange(ms: seq<Msg>, prompt: string, reply: string, summarize: Summarizer)
    requires |ms| + 1 < SummaryTriggerCount
    ensures var after := ContextMessages(ms + [Msg(User, prompt)], summarize) + [Msg(Assistant, reply)];
      |after| >= 2 && after[..|after| - 2] == ms
  {
    var after := ms + [Msg(User, prompt)] + [Msg(Assistant, reply)];
    assert after[..|after| - 2] == ms;
  }

  /** `self.messages[:-2]`, which is empty for a shorter list. */
  function DeleteLast2(ms: seq<Msg>): seq<Msg>
  {
    if |ms| < 2 then [] else ms[..|ms| - 2]
  }

  /** A stream whose tokens the window received in full, starting from the
      empty accumulator, is recorded as the reply of `Sse.Reply`: the error
      note of a failure becomes part of the assistant entry. */
  lemma ErrorBecomesReply(o: ScanResult)
    ensures TokenText(StreamedEvents(o)) == Reply(o)
    ensures o.Broken? ==> Reply(o) == Concat(o.tokens) + ErrorNote(o.message)
  {
    TokensSpellReply(o);
  }

  class ChatWindow {
    var messages: seq<Msg>
    var displayMap: seq<nat>
    var currentResponse: string
    var temperature: real
    /** The `token` and `done` signals the worker threads have emitted. */
    var signals: seq<Event>
    /** How many worker threads have been started. */
    var requestsStarted: nat

    constructor ()
      ensures messages == [] && displayMap == [] && currentResponse == ""
      ensures temperature == 0.7 && signals == [] && requestsStarted == 0
    {
      messages := [];
      displayMap := [];
      currentResponse := "";
      temperature := 0.7;
      signals := [];
      requestsStarted := 0;
    }

    /** `send_message`: blank input does nothing; otherwise the stripped
        text becomes one user entry, the display is rebuilt, the
        accumulator cleared and one worker thread started. */
    method SendMessage(input: string)
      modifies this`messages, this`displayMap, this`currentResponse, this`requestsStarted
      ensures Strip(input) == "" ==>
        && messages == old(messages) && displayMap == old(displayMap)
        && currentResponse == old(currentResponse) && requestsStarted == old(requestsStarted)
      ensures Strip(input) != "" ==>
        && messages == old(messages) + [Msg(User, Strip(input))]
        && displayMap == ChatIndices(messages)
        && currentResponse == "" && requestsStarted == old(requestsStarted) + 1
    {
      var text := Strip(input);
      if text == "" {
        return;
      }
      StartRequest(messages + [Msg(User, text)]);
    }

    /** The end of sending and editing: the new list is shown, the
        accumulator cleared and one worker thread started. */
    method StartRequest(ms: seq<Msg>)
      modifies this`messages, this`displayMap, this`currentResponse, this`requestsStarted
      ensures messages == ms && displayMap == ChatIndices(ms)
      ensures currentResponse == "" && requestsStarted == old(requestsStarted) + 1
    {
      messages := ms;
      RefreshChatDisplay();
      currentResponse := "";
      requestsStarted := requestsStarted + 1;
    }

    /** `refresh_chat_display`: one display entry per user or assistant
        message, recording its index. */
    method RefreshChatDisplay()
      modifies this`displayMap
      ensures displayMap == ChatIndices(messages)
    {
      displayMap := [];
      var i := 0;
      while i < |messages|
        invariant i <= |messages|
        invariant displayMap == ChatIndices(messages[..i])
      {
        assert messages[..i + 1][..i] == messages[..i];
        if messages[i].role == User {
          displayMap := displayMap + [i];
        } else if messages[i].role == Assistant {
          displayMap := displayMap + [i];
        }
        i := i + 1;
      }
      assert messages[..i] == messages;
    }

    /** The worker thread `stream_request`: the context is computed (it
        cannot fail), every `delta.content` is emitted as a token, an
        exception is emitted as its error note, and `done` always follows.
        The thread does not touch the message list. */
    method StreamRequest(summarize: Summarizer, lines: seq<BodyLine>, parse: string -> Chunk)
      returns (posted: seq<Msg>)
      modifies this`signals
      ensures posted == ContextMessages(messages, summarize)
      ensures signals == old(signals) + StreamedEvents(Scan(lines, parse, |lines|)) + [Ended]
    {
      posted := ContextMessages(messages, summarize);
      var failure;
      ghost var o;
      failure, o := EmitTokens(lines, parse);
      if failure.Some? {
        signals := signals + [Token(ErrorNote(failure.value))];
      } else {
        assert signals == old(signals) + StreamedEvents(o);
      }
      signals := signals + [Ended];
    }

    /** The line loop of the worker thread, emitting one token per
        `delta.content` until `[DONE]`, the end of the body or an
        exception, whose text is `failure`. */
    method EmitTokens(lines: seq<BodyLine>, parse: string -> Chunk) returns (failure: Option<string>, ghost o: ScanResult)
      modifies this`signals
      ensures o == Scan(lines, parse, |lines|)
      ensures failure == if o.Broken? then Some(o.message) else None
      ensures signals == old(signals) + TokenEvents(o.tokens)
    {
      o := Scan(lines, parse, |lines|);
      ghost var toks: seq<string> := [];
      PrefixedEmpty(o);
      var i := 0;
      while i < |lines|
        invariant i <= |lines|
        invariant o == Prefixed(toks, Scan(lines[i..], parse, |lines| - i))
        invariant signals == old(signals) + TokenEvents(toks)
      {
        var step := ReadLine(lines[i], parse);
        ScanFrom(lines, i, parse, |lines| - i, step);
        if step.Halt? {
          assert toks + [] == toks;
          failure := if step.result.Broken? then Some(step.result.message) else None;
          return;
        }
        PrefixedAppend(toks, step.tokens, Scan(lines[i + 1..], parse, |lines| - i - 1));
        TokenEventsAppend(toks, step.tokens);
        AppendAssoc(old(signals), TokenEvents(toks), TokenEvents(step.tokens));
        toks := toks + step.tokens;
        i := i + 1;
      }
      assert lines[i..] == [] && toks + [] == toks;
      failure := None;
    }

    /** One iteration of the worker's line loop: blank lines and lines
        without the `data: ` prefix are skipped. */
    method ReadLine(line: BodyLine, parse: string -> Chunk) returns (step: Step)
      modifies this`signals
      ensures step == LineStep(line, parse, false)
      ensures step.Next? ==> signals == old(signals) + TokenEvents(step.tokens)
      ensures step.Halt? ==> signals == old(signals)
    {
      match line {
        case Fault(m) =>
          return Halt(Broken([], m));
        case Line(s) =>
          if s == "" || !IsDataLine(s) {
            return Next([]);
          }
          var data := s[|DataPrefix|..];
          if data == DoneSentinel {
            return Halt(Finished([]));
          }
          match parse(data) {
            case Malformed(m) =>
              return Halt(Broken([], m));
            case NoContent =>
              return Next([]);
            case Content(t) =>
              signals := signals + [Token(t)];
              return Next([t]);
          }
      }
    }

    /** `append_token`, connected to the `token` signal. */
    method AppendToken(text: string)
      modifies this`currentResponse
      ensures currentResponse == old(currentResponse) + text
    {
      currentResponse := currentResponse + text;
    }

    /** `finish_response`, connected to `done`: at 24 entries or more the
        list is replaced by its compacted context, then the accumulated
        reply is appended as the last entry. The display map is not
        rebuilt. */
    method FinishResponse(summarize: Summarizer)
      modifies this`messages
      ensures messages == ContextMessages(old(messages), summarize) + [Msg(Assistant, currentResponse)]
      ensures |messages| <= if |old(messages)| < SummaryTriggerCount then |old(messages)| + 1 else MaxContextMessages + 2
    {
      if |messages| >= SummaryTriggerCount {
        messages := ContextMessages(messages, summarize);
        CompactionFallsBack(old(messages), summarize);
      }
      messages := messages + [Msg(Assistant, currentResponse)];
    }

    /** The window's event loop delivering one thread's signals in order:
        each token to `append_token`, then `done` to `finish_response`. */
    method Receive(emitted: seq<Event>, summarize: Summarizer)
      requires |emitted| > 0 && emitted[|emitted| - 1] == Ended
      requires forall k :: 0 <= k < |emitted| - 1 ==> emitted[k].Token?
      modifies this`currentResponse, this`messages
      ensures currentResponse == old(currentResponse) + TokenText(emitted[..|emitted| - 1])
      ensures messages == ContextMessages(old(messages), summarize) + [Msg(Assistant, currentResponse)]
    {
      var i := 0;
      while i < |emitted| - 1
        invariant i <= |emitted| - 1
        invariant currentResponse == old(currentResponse) + TokenText(emitted[..i])
        invariant messages == old(messages)
      {
        assert emitted[..i + 1][..i] == emitted[..i];
        AppendAssoc(old(currentResponse), TokenText(emitted[..i]), emitted[i].text);
        AppendToken(emitted[i].text);
        i := i + 1;
      }
      FinishResponse(summarize);
    }

    /** `delete_last_prompt`: below two entries nothing happens; otherwise
        the last two entries go, whatever their roles, and the display is
        rebuilt. */
    method DeleteLastPrompt()
      modifies this`messages, this`displayMap
      ensures |old(messages)| < 2 ==> messages == old(messages) && displayMap == old(displayMap)
      ensures |old(messages)| >= 2 ==>
        messages == DeleteLast2(old(messages)) && displayMap == ChatIndices(messages)
    {
      if |messages| < 2 {
        return;
      }
      messages := messages[..|messages| - 2];
      RefreshChatDisplay();
    }

    /** `edit_last_prompt`, given what the dialog returned: below two
        entries, on cancel or with blank text nothing happens; otherwise the
        last two entries are replaced by one user entry holding the new text
        as typed, and a worker thread starts. */
    method EditLastPrompt(newText: string, ok: bool)
      modifies this`messages, this`displayMap, this`currentResponse, this`requestsStarted
      ensures |old(messages)| < 2 || !ok || Strip(newText) == "" ==>
        && messages == old(messages) && displayMap == old(displayMap)
        && currentResponse == old(currentResponse) && requestsStarted == old(requestsStarted)
      ensures |old(messages)| >= 2 && ok && Strip(newText) != "" ==>
        && messages == DeleteLast2(old(messages)) + [Msg(User, newText)]
        && displayMap == ChatIndices(messages)
        && currentResponse == "" && requestsStarted == old(requestsStarted) + 1
    {
      if |messages| < 2 {
        return;
      }
      if !ok || Strip(newText) == "" {
        return;
      }
      StartRequest(messages[..|messages| - 2] + [Msg(User, newText)]);
    }

    /** The validation loop of `load_chat_manual`. */
    method CheckEntries(items: seq<map<string, string>>) returns (ok: bool)
      ensures ok <==> WellFormed(items)
    {
      var i := 0;
      while i < |items|
        invariant i <= |items|
        invariant WellFormed(items[..i])
      {
        if !("role" in items[i]) || !("content" in items[i]) {
          return false;
        }
        assert forall k :: 0 <= k < i + 1 ==> items[..i + 1][k] == items[k];
        i := i + 1;
      }
      assert items[..i] == items;
      return true;
    }

    /** `load_chat_manual`, given the chosen path (empty when cancelled) and
        what reading it gives: the conversation is replaced only by a list
        whose every entry has `role` and `content`. */
    method LoadChatManual(path: string, loaded: Loaded) returns (outcome: LoadOutcome)
      modifies this`messages, this`displayMap, this`currentResponse
      ensures outcome == Cancelled <==> path == ""
      ensures outcome == Replaced <==> path != "" && loaded.Entries? && WellFormed(loaded.items)
      ensures outcome == Replaced ==>
        && messages == ToMsgs(loaded.items) && currentResponse == "" && displayMap == ChatIndices(messages)
      ensures outcome != Replaced ==>
        messages == old(messages) && displayMap == old(displayMap) && currentResponse == old(currentResponse)
    {
      if path == "" {
        return Cancelled;
      }
      if !loaded.Entries? {
        return Refused;
      }
      var ok := CheckEntries(loaded.items);
      if !ok {
        return Refused;
      }
      messages := ToMsgs(loaded.items);
      currentResponse := "";
      RefreshChatDisplay();
      return Replaced;
    }
  }
}
