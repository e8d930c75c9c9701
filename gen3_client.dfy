/** The latest generation's `LLMClient`: the visible message list, the wire
    payload list and the persona preset, the compaction rule that builds
    what is sent, the streaming loop, and saving/restoring the payload.
    HTTP is replaced by its inputs: the summariser is a function that may
    fail, and the streamed response is a sequence of body lines. */
module Gen3Client {
  import opened Text
  import opened Messages
  import opened Sse

  const MaxContextMessages := 16
  const SummaryTriggerCount := 24
  const SummaryPrefix := "Conversation summary:\n"
  const NoModelSelected := "No model selected"

  /** `_summarize`: the summary text of the given messages, or None when the
      request raised. */
  type Summarizer = seq<Msg> -> Option<string>

  /** `_build_payload`: the preset entry (when set), then the payload messages;
      above the trigger count everything but the last sixteen is replaced by
      one summary entry. None stands for the summariser's exception. */
  function BuildPayload(preset: string, pm: seq<Msg>, summarize: Summarizer): (r: Option<seq<Msg>>)
    ensures r.None? <==> |pm| > SummaryTriggerCount && summarize(pm[..|pm| - MaxContextMessages]).None?
    ensures r.Some? && preset != "" ==> |r.value| > 0 && r.value[0] == Msg(System, preset)
    ensures |pm| <= SummaryTriggerCount ==>
      r.Some? && |r.value| == PresetLength(preset) + |pm| && r.value[PresetLength(preset)..] == pm
    ensures |pm| > SummaryTriggerCount && r.Some? ==>
      && |r.value| == PresetLength(preset) + 1 + MaxContextMessages
      && r.value[PresetLength(preset)]
         == Msg(System, SummaryPrefix + summarize(pm[..|pm| - MaxContextMessages]).value)
      && r.value[PresetLength(preset) + 1..] == pm[|pm| - MaxContextMessages..]
  {
    if |pm| > SummaryTriggerCount then
      match summarize(pm[..|pm| - MaxContextMessages])
      case None => None
      case Some(s) =>
        Some(WithPreset(preset, [Msg(System, SummaryPrefix + s)] + pm[|pm| - MaxContextMessages..]))
    else
      Some(WithPreset(preset, pm))
  }

  /** The compacted payload always has 17 entries, or 18 with a preset. */
  lemma CompactedLength(preset: string, pm: seq<Msg>, summarize: Summarizer)
    requires |pm| > SummaryTriggerCount && BuildPayload(preset, pm, summarize).Some?
    ensures |BuildPayload(preset, pm, summarize).value| == if preset == "" then 17 else 18
  {
  }

  /** The client state `import_payload` rebuilds. */
  datatype ImportState = ImportState(preset: string, messages: seq<Msg>, payloadMessages: seq<Msg>)

  /** One iteration of the `import_payload` loop: the first system entry met
      while the preset is empty becomes the preset; every other entry goes
      to the payload, and user/assistant entries also to the visible list. */
  function ImportStep(st: ImportState, m: Msg): ImportState
  {
    if m.role == System && st.preset == "" then st.(preset := m.content)
    else st.(payloadMessages := st.payloadMessages + [m],
             messages := if IsChatRole(m) then st.messages + [m] else st.messages)
  }

  function FoldImport(st: ImportState, ps: seq<Msg>): ImportState
    decreases |ps|
  {
    if ps == [] then st else ImportStep(FoldImport(st, ps[..|ps| - 1]), ps[|ps| - 1])
  }

  /** The user and assistant entries of `ps`, in order. */
  function Conversation(ps: seq<Msg>): (r: seq<Msg>)
    ensures |r| <= |ps|
    decreases |ps|
  {
    if ps == [] then []
    else Conversation(ps[..|ps| - 1]) + (if IsChatRole(ps[|ps| - 1]) then [ps[|ps| - 1]] else [])
  }

  lemma {:induction false} FoldImportAppend(st: ImportState, a: seq<Msg>, b: seq<Msg>)
    ensures FoldImport(st, a + b) == FoldImport(FoldImport(st, a), b)
    decreases |b|
  {
    if b == [] {
      assert a + b == a;
    } else {
      assert (a + b)[..|a + b| - 1] == a + b[..|b| - 1];
      FoldImportAppend(st, a, b[..|b| - 1]);
    }
  }

  /** Once the preset is set, every imported entry lands in the payload and
      the user/assistant ones in the visible list. */
  lemma {:induction false} FoldImportWithPreset(q: string, ms: seq<Msg>, ps0: seq<Msg>, ps: seq<Msg>)
    requires q != ""
    ensures FoldImport(ImportState(q, ms, ps0), ps) == ImportState(q, ms + Conversation(ps), ps0 + ps)
    decreases |ps|
  {
    if ps == [] {
      assert ms + [] == ms && ps0 + [] == ps0;
    } else {
      var init := ps[..|ps| - 1];
      FoldImportWithPreset(q, ms, ps0, init);
      assert ps0 + init + [ps[|ps| - 1]] == ps0 + ps;
    }
  }

  /** `export_payload` followed by `import_payload` into a client whose preset
      is empty restores the preset and the payload exactly; the visible list
      receives only the user/assistant entries. */
  lemma ExportImportRoundTrip(p: string, pm: seq<Msg>)
    requires p != ""
    ensures FoldImport(ImportState("", [], []), WithPreset(p, pm)) == ImportState(p, Conversation(pm), pm)
  {
    var head := [Msg(System, p)];
    FoldImportAppend(ImportState("", [], []), head, pm);
    assert FoldImport(ImportState("", [], []), head) == ImportState(p, [], []) by {
      assert head[..0] == [];
    }
    FoldImportWithPreset(p, [], [], pm);
  }

  /** When the client already has a preset, importing an exported payload keeps
      the exported preset entry as the first payload message. */
  lemma ImportKeepsPresetEntry(q: string, p: string, pm: seq<Msg>)
    requires q != "" && p != ""
    ensures FoldImport(ImportState(q, [], []), WithPreset(p, pm))
         == ImportState(q, Conversation(pm), [Msg(System, p)] + pm)
  {
    FoldImportWithPreset(q, [], [], WithPreset(p, pm));
    ConversationAppend([Msg(System, p)], pm);
    assert Conversation([Msg(System, p)]) == [] by {
      assert [Msg(System, p)][..0] == [];
    }
  }

  lemma {:induction false} ConversationAppend(a: seq<Msg>, b: seq<Msg>)
    ensures Conversation(a + b) == Conversation(a) + Conversation(b)
    decreases |b|
  {
    if b == [] {
      assert a + b == a;
    } else {
      assert (a + b)[..|a + b| - 1] == a + b[..|b| - 1];
      ConversationAppend(a, b[..|b| - 1]);
    }
  }

  /** The events that end a scan: `done` with the full text, `error` with the
      exception's text, or nothing after an abort. */
  function Terminal(o: ScanResult, text: string): seq<Event>
  {
    match o
    case Finished(_) => [Done(text)]
    case Broken(_, m) => [Error(m)]
    case Stopped(_) => []
  }

  /** The `error` event a scan ends with, if any. */
  function ErrorEvents(o: ScanResult): (r: seq<Event>)
    ensures r == [] <==> !o.Broken?
  {
    if o.Broken? then [Error(o.message)] else []
  }

  /** Ending the scan with `r` after the tokens `toks` emits exactly the
      error events of the whole scan. */
  lemma HaltEvents(e0: seq<Event>, toks: seq<string>, r: ScanResult)
    requires r.tokens == []
    ensures Prefixed(toks, r).tokens == toks
    ensures e0 + TokenEvents(toks) + ErrorEvents(r) == e0 + TokenEvents(Prefixed(toks, r).tokens) + ErrorEvents(Prefixed(toks, r))
  {
    assert toks + [] == toks;
  }

  /** `not self.model_name`. */
  predicate NoModel(m: Option<string>)
  {
    m.None? || m.value == ""
  }

  /** What `generate` did between the two states: without a model one
      error event and nothing else, otherwise the abort flag and the
      accumulator cleared and one request started. */
  twostate predicate Generated(c: LLMClient)
    reads c`modelName, c`events, c`abortFlag, c`currentResponse, c`requestsStarted
  {
    if NoModel(c.modelName) then
      && c.events == old(c.events) + [Error(NoModelSelected)]
      && c.abortFlag == old(c.abortFlag) && c.currentResponse == old(c.currentResponse)
      && c.requestsStarted == old(c.requestsStarted)
    else
      && c.events == old(c.events) && !c.abortFlag && c.currentResponse == ""
      && c.requestsStarted == old(c.requestsStarted) + 1
  }

  class LLMClient {
    var modelName: Option<string>
    var temperature: real
    var preset: string
    var messages: seq<Msg>
    var payloadMessages: seq<Msg>
    var currentResponse: string
    var abortFlag: bool
    /** The `token`, `done` and `error` signals emitted so far. */
    var events: seq<Event>
    /** How many streaming threads `generate` has started. */
    var requestsStarted: nat

    constructor ()
      ensures modelName == None && temperature == 0.7 && preset == ""
      ensures messages == [] && payloadMessages == [] && currentResponse == ""
      ensures !abortFlag && events == [] && requestsStarted == 0
    {
      modelName := None;
      temperature := 0.7;
      preset := "";
      messages := [];
      payloadMessages := [];
      currentResponse := "";
      abortFlag := false;
      events := [];
      requestsStarted := 0;
    }

    /** `set_model(model)`; a saved chat may hold JSON null, hence the option. */
    method SetModel(model: Option<string>)
      modifies this`modelName
      ensures modelName == model
    {
      modelName := model;
    }

    method SetPreset(text: string)
      modifies this`preset
      ensures preset == Strip(text)
    {
      preset := Strip(text);
    }

    /** The same user entry goes to both lists; nothing else changes. */
    method AddUserMessage(text: string)
      modifies this`messages, this`payloadMessages
      ensures messages == old(messages) + [Msg(User, text)]
      ensures payloadMessages == old(payloadMessages) + [Msg(User, text)]
    {
      var msg := Msg(User, text);
      messages := messages + [msg];
      payloadMessages := payloadMessages + [msg];
    }

    /** Without a model: one "No model selected" error and no request.
        Otherwise the abort flag and the accumulator are cleared and one
        streaming request is started. */
    method Generate()
      modifies this`events, this`abortFlag, this`currentResponse, this`requestsStarted
      ensures NoModel(modelName) ==>
        && events == old(events) + [Error(NoModelSelected)]
        && abortFlag == old(abortFlag) && currentResponse == old(currentResponse)
        && requestsStarted == old(requestsStarted)
      ensures !NoModel(modelName) ==>
        && events == old(events) && !abortFlag && currentResponse == ""
        && requestsStarted == old(requestsStarted) + 1
    {
      if modelName.None? || modelName.value == "" {
        events := events + [Error(NoModelSelected)];
        return;
      }
      abortFlag := false;
      currentResponse := "";
      requestsStarted := requestsStarted + 1;
    }

    function ExportPayload(): seq<Msg>
      reads this
    {
      WithPreset(preset, payloadMessages)
    }

    /** The client holds what importing `payload` over the preset `preset0`
        leaves: the preset and both lists. */
    predicate Imported(preset0: string, payload: seq<Msg>)
      reads this`preset, this`messages, this`payloadMessages
    {
      ImportState(preset, messages, payloadMessages) == FoldImport(ImportState(preset0, [], []), payload)
    }

    /** Clears both lists, then replays `payload` entry by entry. */
    method ImportPayload(payload: seq<Msg>)
      modifies this`messages, this`payloadMessages, this`preset
      ensures Imported(old(preset), payload)
    {
      messages := [];
      payloadMessages := [];
      var k := 0;
      while k < |payload|
        invariant 0 <= k <= |payload|
        invariant ImportState(preset, messages, payloadMessages)
               == FoldImport(ImportState(old(preset), [], []), payload[..k])
      {
        var msg := payload[k];
        assert payload[..k + 1][..k] == payload[..k];
        if msg.role == System && preset == "" {
          preset := msg.content;
        } else {
          payloadMessages := payloadMessages + [msg];
          if msg.role == User || msg.role == Assistant {
            messages := messages + [msg];
          }
        }
        k := k + 1;
      }
      assert payload[..k] == payload;
    }

    method AbortGeneration()
      modifies this`abortFlag
      ensures abortFlag
    {
      abortFlag := true;
    }

    /** The body of the streaming thread. The payload is built first, outside
        the exception handler, so a failing summariser ends the thread with
        no event; otherwise the response body is read by `ReadBody`.
        `abortBefore` is the index of the line before which another thread
        raises the abort flag. The flag is modelled as raised only when the
        loop reads it: an abort arriving before a `Fault` line or after the
        last line leaves it as it was here, while the source's
        `abort_generation` sets it whenever called; `Generate` clears it
        before it is next read. */
    method StreamRequest(summarize: Summarizer, lines: seq<BodyLine>, parse: string -> Chunk, abortBefore: nat)
      returns (posted: Option<seq<Msg>>)
      modifies this`currentResponse, this`events, this`messages, this`payloadMessages, this`abortFlag
      ensures posted == BuildPayload(old(preset), old(payloadMessages), summarize)
      ensures posted.None? ==>
        && currentResponse == old(currentResponse) && events == old(events)
        && messages == old(messages) && payloadMessages == old(payloadMessages)
        && abortFlag == old(abortFlag)
      ensures posted.Some? ==>
        var o := Scan(lines, parse, if old(abortFlag) then 0 else abortBefore);
        && currentResponse == old(currentResponse) + Concat(o.tokens)
        && events == old(events) + TokenEvents(o.tokens) + Terminal(o, currentResponse)
        && (o.Finished? ==>
              && messages == old(messages) + [Msg(Assistant, currentResponse)]
              && payloadMessages == old(payloadMessages) + [Msg(Assistant, currentResponse)])
        && (!o.Finished? ==> messages == old(messages) && payloadMessages == old(payloadMessages))
        && abortFlag == (old(abortFlag) || o.Stopped?)
    {
      posted := BuildPayload(preset, payloadMessages, summarize);
      if posted.None? {
        return;
      }
      var stop: nat := if abortFlag then 0 else abortBefore;
      ReadBody(lines, parse, abortBefore, stop);
    }

    /** Reads the body and, when it ended normally, appends one assistant
        entry with the full text to both lists and emits `done`. */
    method ReadBody(lines: seq<BodyLine>, parse: string -> Chunk, abortBefore: nat, stop: nat)
      requires stop == if abortFlag then 0 else abortBefore
      modifies this`currentResponse, this`events, this`messages, this`payloadMessages, this`abortFlag
      ensures
        var o := Scan(lines, parse, stop);
        && currentResponse == old(currentResponse) + Concat(o.tokens)
        && events == old(events) + TokenEvents(o.tokens) + Terminal(o, currentResponse)
        && (o.Finished? ==>
              && messages == old(messages) + [Msg(Assistant, currentResponse)]
              && payloadMessages == old(payloadMessages) + [Msg(Assistant, currentResponse)])
        && (!o.Finished? ==> messages == old(messages) && payloadMessages == old(payloadMessages))
        && abortFlag == (old(abortFlag) || o.Stopped?)
    {
      ghost var o;
      var finished;
      finished, o := ScanBody(lines, parse, abortBefore, stop);
      if finished {
        messages := messages + [Msg(Assistant, currentResponse)];
        payloadMessages := payloadMessages + [Msg(Assistant, currentResponse)];
        events := events + [Done(currentResponse)];
      }
    }

    /** The line loop: every `delta.content` is added to `currentResponse`
        and emitted as a token; an exception emits `error`; a raised abort
        flag ends the thread silently. `finished` says the loop ended at
        `[DONE]` or at the end of the body. `abortFlag` is raised only when
        the loop sees the abort; an abort the loop never reads is not
        recorded in it. */
    method ScanBody(lines: seq<BodyLine>, parse: string -> Chunk, abortBefore: nat, stop: nat)
      returns (finished: bool, ghost o: ScanResult)
      requires stop == if abortFlag then 0 else abortBefore
      modifies this`currentResponse, this`events, this`abortFlag
      ensures o == Scan(lines, parse, stop)
      ensures finished == o.Finished?
      ensures currentResponse == old(currentResponse) + Concat(o.tokens)
      ensures events == old(events) + TokenEvents(o.tokens) + ErrorEvents(o)
      ensures abortFlag == (old(abortFlag) || o.Stopped?)
    {
      o := Scan(lines, parse, stop);
      ghost var toks: seq<string> := [];
      PrefixedEmpty(o);
      var i := 0;
      while i < |lines|
        invariant i <= |lines| && i <= stop
        invariant o == Prefixed(toks, Scan(lines[i..], parse, stop - i))
        invariant abortFlag == old(abortFlag)
        invariant currentResponse == old(currentResponse) + Concat(toks)
        invariant events == old(events) + TokenEvents(toks)
      {
        var step := ReadLine(lines[i], parse, i == abortBefore);
        ScanFrom(lines, i, parse, stop - i, step);
        if step.Halt? {
          finished := step.result.Finished?;
          HaltEvents(old(events), toks, step.result);
          return;
        }
        PrefixedAppend(toks, step.tokens, Scan(lines[i + 1..], parse, stop - i - 1));
        ConcatAppend(toks, step.tokens);
        AppendAssoc(old(currentResponse), Concat(toks), Concat(step.tokens));
        TokenEventsAppend(toks, step.tokens);
        AppendAssoc(old(events), TokenEvents(toks), TokenEvents(step.tokens));
        toks := toks + step.tokens;
        i := i + 1;
      }
      assert lines[i..] == [] && toks + [] == toks;
      finished := true;
    }

    /** One iteration of the line loop. `raise` says another thread raised
        the abort flag while this line was being read. */
    method ReadLine(line: BodyLine, parse: string -> Chunk, raise: bool) returns (step: Step)
      modifies this`currentResponse, this`events, this`abortFlag
      ensures step == LineStep(line, parse, old(abortFlag) || raise)
      ensures abortFlag == (old(abortFlag) || (step.Halt? && step.result.Stopped?))
      ensures step.Next? ==>
        && currentResponse == old(currentResponse) + Concat(step.tokens)
        && events == old(events) + TokenEvents(step.tokens)
      ensures step.Halt? ==> currentResponse == old(currentResponse) && events == old(events) + ErrorEvents(step.result)
    {
      match line {
        case Fault(m) =>
          events := events + [Error(m)];
          return Halt(Broken([], m));
        case Line(s) =>
          if raise {
            abortFlag := true;
          }
          if abortFlag {
            return Halt(Stopped([]));
          }
          if !IsDataLine(s) {
            return Next([]);
          }
          var data := s[|DataPrefix|..];
          if data == DoneSentinel {
            return Halt(Finished([]));
          }
          match parse(data) {
            case Malformed(m) =>
              events := events + [Error(m)];
              return Halt(Broken([], m));
            case NoContent =>
              return Next([]);
            case Content(t) =>
              currentResponse := currentResponse + t;
              events := events + [Token(t)];
              return Next([t]);
          }
      }
    }
  }
}
