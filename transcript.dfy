/** The chat window's transcript (`chat_markdown`): the entries shown to the
    user, with their timestamps, and the index searches and edits the
    window performs on it. The operations are specified here as functions
    of the old transcript; the window's methods are proved against them. */
module Transcript {
  import opened Messages

  /** One transcript entry: `{"role", "content", "ts"}`, plus
      `"response_time"` on assistant entries written by `on_done`.
      Timestamps are opaque clock readings. */
  datatype Entry = Entry(role: string, content: string, ts: real, responseTime: Option<real>)

  /** The `(role, content)` pair an entry contributes to the wire payload. */
  function ToMsg(e: Entry): Msg
  {
    Msg(e.role, e.content)
  }

  /** Every entry's `(role, content)`, in order. */
  function Replay(t: seq<Entry>): (r: seq<Msg>)
    ensures |r| == |t|
    ensures forall k :: 0 <= k < |t| ==> r[k] == Msg(t[k].role, t[k].content)
  {
    seq(|t|, k requires 0 <= k < |t| => ToMsg(t[k]))
  }

  /** The index of the last user entry, if any. */
  function LastUserIndex(t: seq<Entry>): (r: Option<nat>)
    ensures r.Some? ==> r.value < |t| && t[r.value].role == User
    ensures r.Some? ==> forall k :: r.value < k < |t| ==> t[k].role != User
    ensures r.None? ==> forall k :: 0 <= k < |t| ==> t[k].role != User
    decreases |t|
  {
    if t == [] then None
    else if t[|t| - 1].role == User then Some(|t| - 1)
    else LastUserIndex(t[..|t| - 1])
  }

  /** A user entry with no user entry after it is the one `LastUserIndex` finds. */
  lemma LastUserIndexIs(t: seq<Entry>, u: nat)
    requires u < |t| && t[u].role == User
    requires forall k :: u < k < |t| ==> t[k].role != User
    ensures LastUserIndex(t) == Some(u)
  {
  }

  /** Entries that contain no user entry do not move the last user entry. */
  lemma {:induction false} LastUserIndexSkips(a: seq<Entry>, b: seq<Entry>)
    requires forall k :: 0 <= k < |b| ==> b[k].role != User
    ensures LastUserIndex(a + b) == LastUserIndex(a)
    decreases |b|
  {
    if b != [] {
      var ab := a + b;
      assert ab[|ab| - 1] == b[|b| - 1];
      assert ab[..|ab| - 1] == a + b[..|b| - 1];
      LastUserIndexSkips(a, b[..|b| - 1]);
    } else {
      assert a + b == a;
    }
  }

  /** The backward search of `get_last_user_message`, `edit_last_user_message`
      and `delete_last_user_exchange`: from the last index down to 0, stop at
      the first user entry. */
  method FindLastUser(t: seq<Entry>) returns (idx: Option<nat>)
    ensures idx == LastUserIndex(t)
  {
    var i := |t|;
    while i > 0
      invariant 0 <= i <= |t|
      invariant forall k :: i <= k < |t| ==> t[k].role != User
    {
      if t[i - 1].role == User {
        LastUserIndexIs(t, i - 1);
        return Some(i - 1);
      }
      i := i - 1;
    }
    return None;
  }

  /** The entries after index `u`, without the assistant entry directly after
      `u` when there is one. */
  function AfterReply(t: seq<Entry>, u: nat): seq<Entry>
    requires u < |t|
  {
    if u + 1 < |t| && t[u + 1].role == Assistant then t[u + 2..] else t[u + 1..]
  }

  /** The transcript after `edit_last_user_message(text)` selected index `u`:
      the reply after it is dropped, and the entry takes the new text and
      the new timestamp. */
  function AfterEdit(t: seq<Entry>, u: nat, text: string, now: real): seq<Entry>
    requires u < |t|
  {
    t[..u] + [t[u].(content := text, ts := now)] + AfterReply(t, u)
  }

  /** The transcript after `delete_last_user_exchange` selected index `u`. */
  function AfterDelete(t: seq<Entry>, u: nat): seq<Entry>
    requires u < |t|
  {
    t[..u] + AfterReply(t, u)
  }

  /** The transcript with the assistant entry directly after `u` popped,
      when there is one: the first step of editing and deleting. */
  function PopReply(t: seq<Entry>, u: nat): (r: seq<Entry>)
    requires u < |t|
    ensures u < |r| && r[..u + 1] == t[..u + 1] && r[u + 1..] == AfterReply(t, u)
  {
    if u + 1 < |t| && t[u + 1].role == Assistant then t[..u + 1] + t[u + 2..] else t
  }

  /** Updating entry `u` after the pop is the edit. */
  lemma EditInPlace(t: seq<Entry>, u: nat, text: string, now: real)
    requires u < |t|
    ensures var p := PopReply(t, u);
      p[u := p[u].(content := text, ts := now)] == AfterEdit(t, u, text, now)
  {
    var p := PopReply(t, u);
    var r := p[u := p[u].(content := text, ts := now)];
    assert p[u] == t[u];
    assert r[..u] == t[..u];
    assert r[u + 1..] == AfterReply(t, u);
    SplitAround(r, u);
  }

  /** Removing entry `u` after the pop is the deletion. */
  lemma DeleteInPlace(t: seq<Entry>, u: nat)
    requires u < |t|
    ensures var p := PopReply(t, u);
      p[..u] + p[u + 1..] == AfterDelete(t, u)
  {
    var p := PopReply(t, u);
    assert p[..u] == t[..u];
  }

  /** `regenerate_last_response`'s first step: a trailing assistant entry is popped. */
  function DropTrailingAssistant(t: seq<Entry>): seq<Entry>
  {
    if t != [] && t[|t| - 1].role == Assistant then t[..|t| - 1] else t
  }

  /** Editing the last user entry changes only that entry (text and timestamp),
      removes at most the assistant reply directly after it, keeps every
      entry before it, and leaves it the last user entry, so that
      `get_last_user_message` then returns the new text. */
  lemma EditChangesOnlyLastExchange(t: seq<Entry>, u: nat, text: string, now: real)
    requires LastUserIndex(t) == Some(u)
    ensures var r := AfterEdit(t, u, text, now);
      && |r| <= |t| <= |r| + 1
      && r[..u] == t[..u]
      && r[u] == t[u].(content := text, ts := now)
      && (r[u + 1..] == t[u + 1..] || (t[u + 1].role == Assistant && r[u + 1..] == t[u + 2..]))
      && LastUserIndex(r) == Some(u)
      && r[u].content == text
  {
    var r := AfterEdit(t, u, text, now);
    assert r[..u] == t[..u];
    assert r[u + 1..] == AfterReply(t, u);
    LastUserIndexIs(r, u);
  }

  /** Deleting removes exactly the last user entry and, when it directly
      follows, its assistant reply; the entries before stay, and the user
      entry before it (if any) becomes the last one. */
  lemma DeleteRemovesLastExchange(t: seq<Entry>, u: nat)
    requires LastUserIndex(t) == Some(u)
    ensures var r := AfterDelete(t, u);
      && (|r| == |t| - 1 || |r| == |t| - 2)
      && r[..u] == t[..u]
      && (t == r[..u] + [t[u]] + r[u..]
          || (t[u + 1].role == Assistant && t == r[..u] + [t[u], t[u + 1]] + r[u..]))
      && LastUserIndex(r) == LastUserIndex(t[..u])
  {
    DeleteShape(t, u);
    var rest := AfterReply(t, u);
    assert forall k :: 0 <= k < |rest| ==> rest[k].role != User by {
      NoUserAfter(t, u, u + 1);
      if u + 1 < |t| && t[u + 1].role == Assistant {
        NoUserAfter(t, u, u + 2);
      }
    }
    LastUserIndexSkips(t[..u], rest);
  }

  lemma DeleteShape(t: seq<Entry>, u: nat)
    requires u < |t|
    ensures var r := AfterDelete(t, u);
      && r[..u] == t[..u] && r[u..] == AfterReply(t, u)
      && (|r| == |t| - 1 || |r| == |t| - 2)
      && (t == r[..u] + [t[u]] + r[u..]
          || (t[u + 1].role == Assistant && t == r[..u] + [t[u], t[u + 1]] + r[u..]))
  {
    var r := AfterDelete(t, u);
    assert r[..u] == t[..u] && r[u..] == AfterReply(t, u);
    SplitAround(t, u);
    if u + 1 < |t| && t[u + 1].role == Assistant {
      SplitAround(t[u..], 1);
      assert t[u..][1] == t[u + 1] && t[u..][2..] == t[u + 2..];
      assert t[u + 1..] == [t[u + 1]] + t[u + 2..];
      assert [t[u]] + t[u + 1..] == [t[u], t[u + 1]] + t[u + 2..];
    }
  }

  /** No entry after the last user entry, from index `s` on, is a user entry. */
  lemma NoUserAfter(t: seq<Entry>, u: nat, s: nat)
    requires LastUserIndex(t) == Some(u) && u < s <= |t|
    ensures forall k :: 0 <= k < |t[s..]| ==> t[s..][k].role != User
  {
    forall k | 0 <= k < |t[s..]|
      ensures t[s..][k].role != User
    {
      assert t[s..][k] == t[s + k];
    }
  }

  lemma SplitAround<T>(t: seq<T>, u: nat)
    requires u < |t|
    ensures t == t[..u] + [t[u]] + t[u + 1..]
    ensures t[u..] == [t[u]] + t[u + 1..]
  {
  }

  /** Regenerating is not a no-op even when there is nothing to regenerate:
      a transcript holding only a reply loses it, and the search for a user
      entry that follows finds none. */
  lemma RegenerateDropsOrphanReply(e: Entry)
    requires e.role == Assistant
    ensures DropTrailingAssistant([e]) == []
    ensures LastUserIndex(DropTrailingAssistant([e])).None?
  {
  }

  /** `text.replace(r"\n", "\n")`: each backslash-n escape, scanned from the
      left without overlaps, becomes a newline. */
  function UnescapeNewlines(s: string): (r: string)
    ensures |r| <= |s|
    decreases |s|
  {
    if |s| >= 2 && s[0] == '\\' && s[1] == 'n' then "\n" + UnescapeNewlines(s[2..])
    else if s == [] then s
    else [s[0]] + UnescapeNewlines(s[1..])
  }

  /** `text.replace("\n", "<br/>")`. */
  function BreakNewlines(s: string): (r: string)
    ensures '\n' !in r
    ensures '\n' !in s ==> r == s
    decreases |s|
  {
    if s == [] then s
    else (if s[0] == '\n' then "<br/>" else [s[0]]) + BreakNewlines(s[1..])
  }

  /** The newline normalisation applied to a sent message before it is stored
      and sent: escapes first become newlines, then newlines become breaks. */
  function NormalizeNewlines(s: string): string
  {
    BreakNewlines(UnescapeNewlines(s))
  }

  /** A normalised message never contains a newline, and text with neither a
      newline nor a backslash comes through unchanged. */
  lemma NormalizedHasNoNewline(s: string)
    ensures '\n' !in NormalizeNewlines(s)
    ensures '\n' !in s && '\\' !in s ==> NormalizeNewlines(s) == s
  {
    if '\\' !in s {
      UnescapePassesThrough(s, []);
      assert s + [] == s;
    }
  }

  /** A backslash-n escape and a real newline normalise to the same break. */
  lemma EscapeAndNewlineAgree(a: string, b: string)
    requires '\\' !in a
    ensures NormalizeNewlines(a + ("\\n" + b)) == NormalizeNewlines(a + ("\n" + b))
  {
    UnescapePassesThrough(a, "\\n" + b);
    UnescapePassesThrough(a, "\n" + b);
    var e, n := "\\n" + b, "\n" + b;
    assert e[0] == '\\' && e[1] == 'n' && e[2..] == b;
    assert n[0] == '\n' && n[1..] == b;
  }

  /** Text without a backslash passes through the unescaping unchanged,
      whatever follows it. */
  lemma {:induction false} UnescapePassesThrough(a: string, b: string)
    requires '\\' !in a
    ensures UnescapeNewlines(a + b) == a + UnescapeNewlines(b)
    decreases |a|
  {
    if a == [] {
      assert a + b == b;
    } else {
      var s := a + b;
      assert s[0] == a[0] && s[1..] == a[1..] + b;
      UnescapePassesThrough(a[1..], b);
      assert a == [a[0]] + a[1..];
    }
  }
}
