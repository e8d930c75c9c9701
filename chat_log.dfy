/** The application log `Save/.temp.json`: the most recently opened chat
    (`LastChat`) and the list of chat names shown in the side list
    (`ChatList`, oldest first). Opening or saving a chat moves its name to
    the end of the list. */
module ChatLog {

  /** The first item of the side list, which opens the new-chat settings. */
  const NewChatItem := "Create New Chat [+]"

  /** `l.index(s)`: the position of the first occurrence. */
  function IndexOf(l: seq<string>, s: string): (i: nat)
    requires s in l
    ensures i < |l| && l[i] == s && s !in l[..i]
  {
    if l[0] == s then 0 else (assert s in l[1..]; 1 + IndexOf(l[1..], s))
  }

  /** `l.remove(s)`: the first occurrence is taken out. */
  function RemoveFirst(l: seq<string>, s: string): (r: seq<string>)
    requires s in l
    ensures |r| == |l| - 1
    ensures multiset(r) == multiset(l) - multiset{s}
  {
    var i := IndexOf(l, s);
    assert l == l[..i] + [s] + l[i + 1..];
    l[..i] + l[i + 1..]
  }

  /** The list with every occurrence of `s` taken out, the rest in order. */
  function Without(l: seq<string>, s: string): (r: seq<string>)
    ensures s !in r
    ensures forall x :: x in r <==> x in l && x != s
    decreases |l|
  {
    if l == [] then []
    else if l[|l| - 1] == s then Without(l[..|l| - 1], s)
    else Without(l[..|l| - 1], s) + [l[|l| - 1]]
  }

  predicate NoDups(l: seq<string>)
  {
    forall i, j :: 0 <= i < j < |l| ==> l[i] != l[j]
  }

  /** The chat-list update of `load_chat` and `save_settings`: the name is
      removed unless its first occurrence is already last, then appended
      unless still present. */
  function Touched(l: seq<string>, s: string): seq<string>
  {
    var l' := if s in l && IndexOf(l, s) != |l| - 1 then RemoveFirst(l, s) else l;
    if s in l' then l' else l' + [s]
  }

  /** The name is always in the updated list. */
  lemma TouchedContains(l: seq<string>, s: string)
    ensures s in Touched(l, s)
  {
  }

  /** A name that is already last, and only there, leaves the list unchanged. */
  lemma TouchedKeepsLast(l: seq<string>, s: string)
    requires l != [] && l[|l| - 1] == s && s !in l[..|l| - 1]
    ensures Touched(l, s) == l
  {
    assert s in l;
    assert IndexOf(l, s) == |l| - 1;
  }

  /** On a duplicate-free list the name ends up last, exactly once, with the
      other names in their old order, and the list stays duplicate-free. */
  lemma TouchedMovesToEnd(l: seq<string>, s: string)
    requires NoDups(l)
    ensures Touched(l, s) == Without(l, s) + [s]
    ensures NoDups(Touched(l, s))
  {
    TouchedIsWithoutThenName(l, s);
    NoDupsWithout(l, s);
    NoDupsSnoc(Without(l, s), s);
  }

  /** On a duplicate-free list the update is the other names in order,
      then the name. */
  lemma TouchedIsWithoutThenName(l: seq<string>, s: string)
    requires NoDups(l)
    ensures Touched(l, s) == Without(l, s) + [s]
  {
    if s in l {
      var i := IndexOf(l, s);
      WithoutUnique(l, s, i);
      if i == |l| - 1 {
        assert l == l[..i] + [s];
      } else {
        assert RemoveFirst(l, s) == Without(l, s);
      }
    } else {
      WithoutAbsent(l, s);
    }
  }

  lemma NoDupsSnoc(r: seq<string>, s: string)
    requires NoDups(r) && s !in r
    ensures NoDups(r + [s])
  {
    forall i, j | 0 <= i < j < |r + [s]|
      ensures (r + [s])[i] != (r + [s])[j]
    {
      if j == |r| {
        assert (r + [s])[i] == r[i] && r[i] in r;
      }
    }
  }

  /** With duplicates the name need not end up last: only its first
      occurrence is removed, and a later one stays where it was. */
  lemma TouchedWithDuplicates()
    ensures Touched(["a", "b", "a", "c"], "a") == ["b", "a", "c"]
  {
    var l := ["a", "b", "a", "c"];
    assert IndexOf(l, "a") == 0;
    assert RemoveFirst(l, "a") == ["b", "a", "c"];
  }

  lemma {:induction false} WithoutAbsent(l: seq<string>, s: string)
    requires s !in l
    ensures Without(l, s) == l
    decreases |l|
  {
    if l != [] {
      assert l[|l| - 1] in l;
      assert forall k :: 0 <= k < |l| - 1 ==> l[..|l| - 1][k] == l[k];
      WithoutAbsent(l[..|l| - 1], s);
      assert l == l[..|l| - 1] + [l[|l| - 1]];
    }
  }

  /** Removing the only occurrence, at `i`, is removing all of them. */
  lemma {:induction false} WithoutUnique(l: seq<string>, s: string, i: nat)
    requires NoDups(l) && i < |l| && l[i] == s
    ensures Without(l, s) == l[..i] + l[i + 1..]
    decreases |l|
  {
    var n := |l| - 1;
    var init := l[..n];
    NoDupsInit(l);
    if i == n {
      assert forall k :: 0 <= k < n ==> init[k] == l[k] && l[k] != l[n];
      WithoutAbsent(init, s);
      assert l[i + 1..] == [];
      assert l[..i] + l[i + 1..] == init;
    } else {
      assert l[n] != s by {
        assert l[i] != l[n];
      }
      WithoutUnique(init, s, i);
      assert init[..i] == l[..i];
      assert init[i + 1..] + [l[n]] == l[i + 1..];
      assert l[..i] + l[i + 1..] == l[..i] + init[i + 1..] + [l[n]];
    }
  }

  lemma {:induction false} NoDupsWithout(l: seq<string>, s: string)
    requires NoDups(l)
    ensures NoDups(Without(l, s))
    decreases |l|
  {
    if l != [] {
      var n := |l| - 1;
      var init := l[..n];
      NoDupsInit(l);
      NoDupsWithout(init, s);
      if l[n] != s {
        assert l[n] !in Without(init, s);
        NoDupsSnoc(Without(init, s), l[n]);
      }
    }
  }

  lemma NoDupsInit(l: seq<string>)
    requires NoDups(l) && l != []
    ensures NoDups(l[..|l| - 1])
  {
    var init := l[..|l| - 1];
    forall a, b | 0 <= a < b < |init|
      ensures init[a] != init[b]
    {
      assert init[a] == l[a] && init[b] == l[b];
    }
  }

  /** The list in reverse order. */
  function Reversed(l: seq<string>): (r: seq<string>)
    ensures |r| == |l|
    ensures forall k :: 0 <= k < |l| ==> r[k] == l[|l| - 1 - k]
  {
    seq(|l|, k requires 0 <= k < |l| => l[|l| - 1 - k])
  }

  /** What the side list shows: the new-chat item, then the chat names,
      newest first. */
  function Display(l: seq<string>): seq<string>
  {
    [NewChatItem] + Reversed(l)
  }

  /** The contents of `Save/.temp.json`. */
  class Logs {
    var lastChat: string
    var chatList: seq<string>

    constructor (lastChat: string, chatList: seq<string>)
      ensures this.lastChat == lastChat && this.chatList == chatList
    {
      this.lastChat := lastChat;
      this.chatList := chatList;
    }

    /** `logs["LastChat"] = path`. */
    method SetLastChat(path: string)
      modifies this`lastChat
      ensures lastChat == path
    {
      lastChat := path;
    }

    /** The in-place list update: `remove` unless the first occurrence is
        last, then `append` unless still present. */
    method Touch(name: string)
      modifies this`chatList
      ensures chatList == Touched(old(chatList), name)
      ensures name in chatList
      ensures NoDups(old(chatList)) ==>
        NoDups(chatList) && chatList == Without(old(chatList), name) + [name]
    {
      if name in chatList && IndexOf(chatList, name) != |chatList| - 1 {
        chatList := RemoveFirst(chatList, name);
      }
      if name !in chatList {
        chatList := chatList + [name];
      }
      TouchedContains(old(chatList), name);
      if NoDups(old(chatList)) {
        TouchedMovesToEnd(old(chatList), name);
      }
    }
  }
}
