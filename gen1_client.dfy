/** The first generation's `LLMClient`: one message list, the compaction
    rule applied to it before each request, and a streaming thread that
    folds a failure into the reply text. HTTP is replaced by its inputs:
    the summariser is a function that may fail, the streamed response a
    sequence of body lines, and the readiness poll a function of the
    attempt number. */
module Gen1Client {
  import opened Messages
  import opened Sse

  const MaxContextMessages := 16
  const SummaryTriggerCount := 24
  /** The default of `wait_for_server`'s `timeout`, in one-second polls. */
  const DefaultPolls := 120

  /** `_summarize`: the summary text, or None when the request raised. */
  type Summarizer = seq<Msg> -> Option<string>

  /** `get_context_messages`: a copy of the list below the trigger count;
      from 24 entries on, one system entry holding the raw summary of all
      but the last sixteen, then those sixteen. None stands for the
      summariser's exception, which nothing catches. */
  function ContextMessages(ms: seq<Msg>, summarize: Summarizer): (r: Option<seq<Msg>>)
    ensures |ms| < SummaryTriggerCount ==> r == Some(ms)
    ensures |ms| >= SummaryTriggerCount ==>
      && (r.None? <==> summarize(ms[..|ms| - MaxContextMessages]).None?)
      && (r.Some? ==>
            && |r.value| == MaxContextMessages + 1
            && r.value[0] == Msg(System, summarize(ms[..|ms| - MaxContextMessages]).value))
  {
    if |ms| < SummaryTriggerCount then Some(ms)
    else
      match summarize(ms[..|ms| - MaxContextMessages])
      case None => None
      case Some(s) => Some([Msg(System, s)] + ms[|ms| - MaxContextMessages..])
  }

  /** What is sent is always below the trigger count and always ends with
      the last sixteen entries (all of them when there are fewer). */
  lemma ContextKeepsRecent(ms: seq<Msg>, summarize: Summarizer)
    requires ContextMessages(ms, summarize).Some?
    ensures var c := ContextMessages(ms, summarize).value;
      var n := if |ms| < MaxContextMessages then |ms| else MaxContextMessages;
      && |c| < SummaryTriggerCount && n <= |c|
      && c[|c| - n..] == ms[|ms| - n..]
  {
  }

  class LLMClient {
    var messages: seq<Msg>
    var temperature: real
    var currentResponse: string
    /** The `token` and `done` signals emitted so far. */
    var events: seq<Event>
    /** How many streaming threads `generate` has started. */
    var requestsStarted: nat

    constructor ()
      ensures messages == [] && temperature == 0.7 && currentResponse == ""
      ensures events == [] && requestsStarted == 0
    {
      messages := [];
      temperature := 0.7;
      currentResponse := "";
      events := [];
      requestsStarted := 0;
    }

    /** `add_user_message`: exactly one user entry at the end. */
    method AddUserMessage(text: string)
      modifies this`messages
      ensures messages == old(messages) + [Msg(User, text)]
    {
      messages := messages + [Msg(User, text)];
    }

    /** `generate`: the accumulator is cleared, then one thread starts. */
    method Generate()
      modifies this`currentResponse, this`requestsStarted
      ensures currentResponse == "" && requestsStarted == old(requestsStarted) + 1
    {
      currentResponse := "";
      requestsStarted := requestsStarted + 1;
    }

    /** The body of the streaming thread. The context is built before the
        exception handler, so a failing summariser ends the thread with no
        effect. Otherwise every `delta.content` is added to the reply and
        emitted; an exception adds its note to the reply and emits it; in
        every case the reply is then recorded as an assistant entry and
        `done` carries it. Nothing can abort this client. */
    method StreamRequest(summarize: Summarizer, lines: seq<BodyLine>, parse: string -> Chunk)
      returns (posted: Option<seq<Msg>>)
      modifies this`currentResponse, this`events, this`messages
      ensures posted == ContextMessages(old(messages), summarize)
      ensures posted.None? ==>
        currentResponse == old(currentResponse) && events == old(events) && messages == old(messages)
      ensures posted.Some? ==>
        var o := Scan(lines, parse, |lines|);
        && !o.Stopped?
        && currentResponse == old(currentResponse) + Reply(o)
        && messages == old(messages) + [Msg(Assistant, currentResponse)]
        && events == old(events) + StreamedEvents(o) + [Done(currentResponse)]
    {
      posted := ContextMessages(messages, summarize);
      if posted.None? {
        return;
      }
      var failure;
      ghost var o;
      failure, o := ScanBody(lines, parse);
      NeverStoppedWithoutAbort(lines, parse, |lines|);
      if failure.Some? {
        AppendAssoc(old(currentResponse), Concat(o.tokens), ErrorNote(failure.value));
        currentResponse := currentResponse + ErrorNote(failure.value);
        events := events + [Token(ErrorNote(failure.value))];
      } else {
        assert Reply(o) == Concat(o.tokens) + "";
      }
      messages := messages + [Msg(Assistant, currentResponse)];
      events := events + [Done(currentResponse)];
    }

    /** The line loop: every `delta.content` is added to `currentResponse`
        and emitted as a token, until `[DONE]`, the end of the body or an
        exception, whose text is `failure`. */
    method ScanBody(lines: seq<BodyLine>, parse: string -> Chunk) returns (failure: Option<string>, ghost o: ScanResult)
      modifies this`currentResponse, this`events
      ensures o == Scan(lines, parse, |lines|)
      ensures failure == if o.Broken? then Some(o.message) else None
      ensures currentResponse == old(currentResponse) + Concat(o.tokens)
      ensures events == old(events) + TokenEvents(o.tokens)
    {
      o := Scan(lines, parse, |lines|);
      ghost var toks: seq<string> := [];
      PrefixedEmpty(o);
      var i := 0;
      while i < |lines|
        invariant i <= |lines|
        invariant o == Prefixed(toks, Scan(lines[i..], parse, |lines| - i))
        invariant currentResponse == old(currentResponse) + Concat(toks)
        invariant events == old(events) + TokenEvents(toks)
      {
        var step := ReadLine(lines[i], parse);
        ScanFrom(lines, i, parse, |lines| - i, step);
        if step.Halt? {
          assert toks + [] == toks;
          failure := if step.result.Broken? then Some(step.result.message) else None;
          return;
        }
        PrefixedAppend(toks, step.tokens, Scan(lines[i + 1..], parse, |lines| - i - 1));
        ConcatAppend(toks, step.tokens);
        AppendAssoc(old(currentResponse), Concat(toks), Concat(step.tokens));
        TokenEventsAppend(toks, step.tokens);
        AppendAssoc(old(events), TokenEvents(toks), TokenEvents(step.tokens));
        toks := toks + step.tokens;
        i := i + 1;
      }
      assert lines[i..] == [] && toks + [] == toks;
      failure := None;
    }

    /** One iteration of the line loop: a blank line or one without the
        `data: ` prefix is skipped, `[DONE]` ends the loop, and a delta
        with `content` is one token. */
    method ReadLine(line: BodyLine, parse: string -> Chunk) returns (step: Step)
      modifies this`currentResponse, this`events
      ensures step == LineStep(line, parse, false)
      ensures step.Next? ==>
        && currentResponse == old(currentResponse) + Concat(step.tokens)
        && events == old(events) + TokenEvents(step.tokens)
      ensures step.Halt? ==> currentResponse == old(currentResponse) && events == old(events)
    {
      match line {
        case Fault(m) =>
          return Halt(Broken([], m));
        case Line(s) =>
          if !IsDataLine(s) {
            return Next([]);
          }
          var data := s[|DataPrefix|..];
          if data == DoneSentinel {
            return Halt(Finished([]));
          }
          match parse(data) {
            case Malformed(m) =>
              return Halt(Broken([], m));
            case NoContent =>
              return Next([]);
            case Content(t) =>
              currentResponse := currentResponse + t;
              events := events + [Token(t)];
              return Next([t]);
          }
      }
    }

    /** `wait_for_server`: polls once per attempt, at most `timeout` times,
        and returns at the first success; `ready` false stands for the
        `RuntimeError` raised after the last attempt. */
    method WaitForServer(probe: nat -> bool, timeout: nat) returns (ready: bool, polls: nat)
      ensures polls <= timeout
      ensures ready <==> exists k :: 0 <= k < timeout && probe(k)
      ensures ready ==> polls > 0 && probe(polls - 1) && forall k :: 0 <= k < polls - 1 ==> !probe(k)
      ensures !ready ==> polls == timeout
    {
      polls := 0;
      while polls < timeout
        invariant polls <= timeout
        invariant forall k :: 0 <= k < polls ==> !probe(k)
      {
        polls := polls + 1;
        if probe(polls - 1) {
          return true, polls;
        }
      }
      return false, polls;
    }
  }
}
