/** The role/content pairs that travel to the inference endpoint, the
    optional-result type, and the events a client emits. */
module Messages {

  datatype Option<+T> = None | Some(value: T)

  const User := "user"
  const Assistant := "assistant"
  const System := "system"

  /** One wire message, `{"role": role, "content": content}`. */
  datatype Msg = Msg(role: string, content: string)

  /** The signals a client emits: `token`, `done` and `error`, and the
      argument-less `done` of the first generation's stream emitter. */
  datatype Event = Token(text: string) | Done(text: string) | Error(text: string) | Ended

  /** An entry of the conversation proper, as opposed to a system entry. */
  predicate IsChatRole(m: Msg)
  {
    m.role == User || m.role == Assistant
  }

  /** A system entry carrying the preset, when the preset is non-empty
      (Python's truthiness of `self.preset`), followed by `msgs`. */
  function WithPreset(preset: string, msgs: seq<Msg>): (r: seq<Msg>)
    ensures preset == "" ==> r == msgs
    ensures preset != "" ==> |r| == |msgs| + 1 && r[0] == Msg(System, preset) && r[1..] == msgs
  {
    (if preset != "" then [Msg(System, preset)] else []) + msgs
  }

  /** The number of entries `WithPreset` puts in front. */
  function PresetLength(preset: string): nat
  {
    if preset != "" then 1 else 0
  }

  /** The concatenation of a sequence of text pieces. */
  function Concat(ts: seq<string>): (r: string)
    ensures |ts| == 1 ==> r == ts[0]
    decreases |ts|
  {
    if ts == [] then "" else Concat(ts[..|ts| - 1]) + ts[|ts| - 1]
  }

  /** One `token` event per piece, in order. */
  function TokenEvents(ts: seq<string>): (r: seq<Event>)
    ensures |r| == |ts|
    decreases |ts|
  {
    if ts == [] then [] else TokenEvents(ts[..|ts| - 1]) + [Token(ts[|ts| - 1])]
  }

  lemma ConcatSnoc(ts: seq<string>, t: string)
    ensures Concat(ts + [t]) == Concat(ts) + t
  {
    assert (ts + [t])[..|ts|] == ts;
  }

  lemma TokenEventsSnoc(ts: seq<string>, t: string)
    ensures TokenEvents(ts + [t]) == TokenEvents(ts) + [Token(t)]
  {
    assert (ts + [t])[..|ts|] == ts;
  }

  lemma ConcatAppend(ts: seq<string>, us: seq<string>)
    requires |us| <= 1
    ensures Concat(ts + us) == Concat(ts) + Concat(us)
  {
    if us == [] {
      assert ts + us == ts;
    } else {
      ConcatSnoc(ts, us[0]);
      assert us == [us[0]];
    }
  }

  lemma TokenEventsAppend(ts: seq<string>, us: seq<string>)
    requires |us| <= 1
    ensures TokenEvents(ts + us) == TokenEvents(ts) + TokenEvents(us)
  {
    if us == [] {
      assert ts + us == ts;
    } else {
      TokenEventsSnoc(ts, us[0]);
      assert us == [us[0]];
      assert TokenEvents(us) == [Token(us[0])] by {
        assert us[..0] == [];
      }
    }
  }

  lemma AppendAssoc<T>(a: seq<T>, b: seq<T>, c: seq<T>)
    ensures (a + b) + c == a + (b + c)
  {
  }

  /** The concatenated text of the `token` events in `es`. */
  function TokenText(es: seq<Event>): string
    decreases |es|
  {
    if es == [] then ""
    else TokenText(es[..|es| - 1]) + (if es[|es| - 1].Token? then es[|es| - 1].text else "")
  }

  lemma {:induction false} TokenTextAppend(a: seq<Event>, b: seq<Event>)
    ensures TokenText(a + b) == TokenText(a) + TokenText(b)
    decreases |b|
  {
    if b == [] {
      assert a + b == a;
    } else {
      var b' := b[..|b| - 1];
      assert (a + b)[..|a + b| - 1] == a + b';
      TokenTextAppend(a, b');
      AppendAssoc(TokenText(a), TokenText(b'), if b[|b| - 1].Token? then b[|b| - 1].text else "");
    }
  }

  /** The token events of a piece sequence carry exactly its concatenation. */
  lemma {:induction false} TokenTextOfTokens(ts: seq<string>)
    ensures TokenText(TokenEvents(ts)) == Concat(ts)
    decreases |ts|
  {
    if ts != [] {
      var ts' := ts[..|ts| - 1];
      TokenEventsSnoc(ts', ts[|ts| - 1]);
      assert ts' + [ts[|ts| - 1]] == ts;
      TokenTextAppend(TokenEvents(ts'), [Token(ts[|ts| - 1])]);
      TokenTextOfTokens(ts');
      assert TokenText([Token(ts[|ts| - 1])]) == "" + ts[|ts| - 1];
      ConcatSnoc(ts', ts[|ts| - 1]);
    }
  }
}
