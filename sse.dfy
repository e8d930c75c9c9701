/** The line scanner every streaming request runs over the HTTP response
    body of an OpenAI-style chat completion: lines framed `data: <json>`,
    terminated by `data: [DONE]`. The body is a sequence of lines; reading a
    line may fail (`Fault`), and decoding a JSON payload is an oracle
    `parse` that says whether the first choice's `delta` carries `content`. */
module Sse {
  import opened Messages
  import opened Text

  /** One step of `iter_lines()`: a line, or the exception raised while reading it. */
  datatype BodyLine = Line(text: string) | Fault(message: string)

  /** What `json.loads(data)["choices"][0]["delta"]` yields for a data payload:
      an exception (with its text), a delta without `content`, or its content. */
  datatype Chunk = Malformed(message: string) | NoContent | Content(text: string)

  /** How the scan of a body ends, with the tokens read before the end:
      at `[DONE]` or the end of the body, with an exception, or because the
      abort flag was seen. */
  datatype ScanResult =
    | Finished(tokens: seq<string>)
    | Broken(tokens: seq<string>, message: string)
    | Stopped(tokens: seq<string>)

  const DataPrefix := "data: "

  /** The first generation's rendering of an exception in the reply text,
      `f"\n[ERROR] {e}\n"`. */
  function ErrorNote(m: string): (r: string)
    ensures |r| == |m| + 10 && r[0] == '\n' && r[1..8] == "[ERROR]" && r[8] == ' '
    ensures r[9..|r| - 1] == m && r[|r| - 1] == '\n'
  {
    "\n[ERROR] " + m + "\n"
  }

  const DoneSentinel := "[DONE]"

  predicate IsDataLine(s: string)
  {
    StartsWith(s, DataPrefix)
  }

  /** `line[6:]` of a data line. */
  function Payload(s: string): string
    requires IsDataLine(s)
  {
    s[|DataPrefix|..]
  }

  /** The result `r` with the tokens `acc` read before it. */
  function Prefixed(acc: seq<string>, r: ScanResult): (r': ScanResult)
    ensures r'.tokens == acc + r.tokens
  {
    match r
    case Finished(ts) => Finished(acc + ts)
    case Broken(ts, m) => Broken(acc + ts, m)
    case Stopped(ts) => Stopped(acc + ts)
  }

  /** The scan of `lines` when the abort flag is seen set at the line with
      index `stop` (a `stop` of at least `|lines|` means it never is).
      Reading a line comes first, the flag check second, then: a line
      without the `data: ` prefix is skipped, `[DONE]` ends the scan, and a
      decoded `delta.content` is one token. */
  function Scan(lines: seq<BodyLine>, parse: string -> Chunk, stop: nat): ScanResult
    decreases |lines|
  {
    if lines == [] then Finished([])
    else match lines[0]
      case Fault(m) => Broken([], m)
      case Line(s) =>
        if stop == 0 then Stopped([])
        else if !IsDataLine(s) then Scan(lines[1..], parse, stop - 1)
        else if Payload(s) == DoneSentinel then Finished([])
        else match parse(Payload(s))
          case Malformed(m) => Broken([], m)
          case NoContent => Scan(lines[1..], parse, stop - 1)
          case Content(t) => Prefixed([t], Scan(lines[1..], parse, stop - 1))
  }

  /** What reading one line does: go on with the tokens it carries (none
      or one), or end the scan with a result. */
  datatype Step = Next(tokens: seq<string>) | Halt(result: ScanResult)

  /** One iteration of the read loop; `aborted` is the abort flag as seen
      after the line was read. */
  function LineStep(line: BodyLine, parse: string -> Chunk, aborted: bool): (r: Step)
    ensures r.Halt? ==> r.result.tokens == []
    ensures r.Next? ==> |r.tokens| <= 1
  {
    match line
    case Fault(m) => Halt(Broken([], m))
    case Line(s) =>
      if aborted then Halt(Stopped([]))
      else if !IsDataLine(s) then Next([])
      else if Payload(s) == DoneSentinel then Halt(Finished([]))
      else match parse(Payload(s))
        case Malformed(m) => Halt(Broken([], m))
        case NoContent => Next([])
        case Content(t) => Next([t])
  }

  /** The scan from line `i` on is that line's step followed by the scan of
      the rest. */
  lemma ScanFrom(lines: seq<BodyLine>, i: nat, parse: string -> Chunk, stop: nat, step: Step)
    requires i < |lines| && step == LineStep(lines[i], parse, stop == 0)
    ensures step.Halt? ==> Scan(lines[i..], parse, stop) == step.result
    ensures step.Next? ==> stop > 0 && Scan(lines[i..], parse, stop) == Prefixed(step.tokens, Scan(lines[i + 1..], parse, stop - 1))
  {
    assert lines[i..][0] == lines[i] && lines[i..][1..] == lines[i + 1..];
    if step == Next([]) {
      PrefixedEmpty(Scan(lines[i + 1..], parse, stop - 1));
    }
  }

  /** The body line `data: <p>`. */
  function DataLine(p: string): BodyLine
  {
    Line(DataPrefix + p)
  }

  lemma PayloadOfDataLine(p: string)
    ensures IsDataLine(DataLine(p).text) && Payload(DataLine(p).text) == p
  {
    assert (DataPrefix + p)[..|DataPrefix|] == DataPrefix;
  }

  /** A well-formed stream: one data line per token, then `data: [DONE]`,
      is read to `Finished` with exactly those tokens in order, whatever
      follows the sentinel, provided the abort flag is not seen first. */
  lemma {:induction false} ScanWellFormed(payloads: seq<string>, tokens: seq<string>,
                                          rest: seq<BodyLine>, parse: string -> Chunk, stop: nat)
    requires |payloads| == |tokens| && stop > |payloads|
    requires forall k :: 0 <= k < |payloads| ==>
      payloads[k] != DoneSentinel && parse(payloads[k]) == Content(tokens[k])
    ensures Scan(DataLines(payloads) + [DataLine(DoneSentinel)] + rest, parse, stop) == Finished(tokens)
    decreases |payloads|
  {
    var body := DataLines(payloads) + [DataLine(DoneSentinel)] + rest;
    if payloads == [] {
      PayloadOfDataLine(DoneSentinel);
      assert body[0] == DataLine(DoneSentinel);
    } else {
      PayloadOfDataLine(payloads[0]);
      assert body[0] == DataLine(payloads[0]);
      assert body[1..] == DataLines(payloads[1..]) + [DataLine(DoneSentinel)] + rest;
      ScanWellFormed(payloads[1..], tokens[1..], rest, parse, stop - 1);
      assert tokens == [tokens[0]] + tokens[1..];
    }
  }

  function DataLines(ps: seq<string>): (r: seq<BodyLine>)
    ensures |r| == |ps|
    ensures forall k :: 0 <= k < |ps| ==> r[k] == DataLine(ps[k])
  {
    seq(|ps|, k requires 0 <= k < |ps| => DataLine(ps[k]))
  }

  /** Without an abort the scan always ends with `[DONE]`, the end of the body
      or an exception, never by stopping. */
  lemma {:induction false} NeverStoppedWithoutAbort(lines: seq<BodyLine>, parse: string -> Chunk, stop: nat)
    requires stop >= |lines|
    ensures !Scan(lines, parse, stop).Stopped?
    decreases |lines|
  {
    if lines != [] && lines[0].Line? && stop > 0 {
      NeverStoppedWithoutAbort(lines[1..], parse, stop - 1);
    }
  }

  /** An abort seen at line `stop` lets at most `stop` tokens through; an abort
      raised before the first line lets none through. */
  lemma {:induction false} TokensBeforeAbort(lines: seq<BodyLine>, parse: string -> Chunk, stop: nat)
    ensures |Scan(lines, parse, stop).tokens| <= stop
    ensures stop == 0 && lines != [] && lines[0].Line? ==> Scan(lines, parse, stop) == Stopped([])
    decreases |lines|
  {
    if lines != [] && lines[0].Line? && stop > 0 {
      TokensBeforeAbort(lines[1..], parse, stop - 1);
    }
  }

  /** A line without the `data: ` prefix is skipped: removing it from the body
      changes nothing (the abort position shifts with it). */
  lemma {:induction false} NonDataLineSkipped(before: seq<BodyLine>, s: string, after: seq<BodyLine>,
                                              parse: string -> Chunk, stop: nat)
    requires !IsDataLine(s) && stop >= |before|
    ensures Scan(before + [Line(s)] + after, parse, stop + 1) == Scan(before + after, parse, stop)
    decreases |before|
  {
    var long, short := before + [Line(s)] + after, before + after;
    if before == [] {
      assert long[0] == Line(s) && long[1..] == after == short;
    } else {
      assert long[0] == short[0] == before[0];
      assert long[1..] == before[1..] + [Line(s)] + after;
      assert short[1..] == before[1..] + after;
      if before[0].Line? && stop > 0 {
        NonDataLineSkipped(before[1..], s, after, parse, stop - 1);
      } else if before[0].Line? {
        // the abort is seen at the very first line of both bodies
      }
    }
  }

  /** Nothing after the `[DONE]` sentinel is read. */
  lemma {:induction false} DoneEndsReading(before: seq<BodyLine>, after1: seq<BodyLine>, after2: seq<BodyLine>,
                                           parse: string -> Chunk, stop: nat)
    ensures Scan(before + [DataLine(DoneSentinel)] + after1, parse, stop)
         == Scan(before + [DataLine(DoneSentinel)] + after2, parse, stop)
    decreases |before|
  {
    var b1, b2 := before + [DataLine(DoneSentinel)] + after1, before + [DataLine(DoneSentinel)] + after2;
    if before == [] {
      PayloadOfDataLine(DoneSentinel);
      assert b1[0] == b2[0] == DataLine(DoneSentinel);
    } else {
      assert b1[0] == b2[0] == before[0];
      assert b1[1..] == before[1..] + [DataLine(DoneSentinel)] + after1;
      assert b2[1..] == before[1..] + [DataLine(DoneSentinel)] + after2;
      if before[0].Line? && stop > 0 {
        DoneEndsReading(before[1..], after1, after2, parse, stop - 1);
      }
    }
  }

  lemma PrefixedSnoc(acc: seq<string>, t: string, r: ScanResult)
    ensures Prefixed(acc + [t], r) == Prefixed(acc, Prefixed([t], r))
  {
    assert (acc + [t]) + r.tokens == acc + ([t] + r.tokens);
  }

  lemma PrefixedEmpty(r: ScanResult)
    ensures Prefixed([], r) == r
  {
    assert [] + r.tokens == r.tokens;
  }

  lemma PrefixedAppend(acc: seq<string>, ts: seq<string>, r: ScanResult)
    ensures Prefixed(acc + ts, r) == Prefixed(acc, Prefixed(ts, r))
  {
    assert (acc + ts) + r.tokens == acc + (ts + r.tokens);
  }

  /** The events a scan emits before `done`: its tokens, then the error
      note as one more token when it failed. */
  function StreamedEvents(o: ScanResult): seq<Event>
  {
    TokenEvents(o.tokens) + (if o.Broken? then [Token(ErrorNote(o.message))] else [])
  }

  /** The reply the scan produces: its tokens, then the error note when it
      failed. */
  function Reply(o: ScanResult): string
  {
    Concat(o.tokens) + (if o.Broken? then ErrorNote(o.message) else "")
  }

  /** Whatever happens on the wire, the `token` events emitted concatenate
      to the reply that `done` carries and the assistant entry records. */
  lemma TokensSpellReply(o: ScanResult)
    ensures TokenText(StreamedEvents(o)) == Reply(o)
  {
    var tail: seq<Event> := if o.Broken? then [Token(ErrorNote(o.message))] else [];
    TokenTextAppend(TokenEvents(o.tokens), tail);
    TokenTextOfTokens(o.tokens);
    assert TokenText(tail) == "" + (if o.Broken? then ErrorNote(o.message) else "") by {
      if o.Broken? {
        assert tail[..0] == [];
      }
    }
  }
}
