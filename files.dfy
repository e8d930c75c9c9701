/** The saved chats on disk: `pathlib`'s name, stem and suffix of a path,
    the chat record every generation writes, and the file system as a map
    from path to what is stored there. JSON encoding is not modelled: a
    chat file either decodes to a chat record or it does not. */
module Files {
  import opened Text
  import opened Messages
  import opened Transcript

  /** Path separators; the program builds Windows and POSIX paths alike. */
  predicate IsSep(c: char)
  {
    c == '/' || c == '\\'
  }

  predicate NoSep(s: string)
  {
    forall k :: 0 <= k < |s| ==> !IsSep(s[k])
  }

  /** `PurePath.name`: the text after the last separator. */
  function Name(p: string): (r: string)
    ensures |r| <= |p|
    ensures NoSep(r)
    ensures |r| < |p| ==> IsSep(p[|p| - |r| - 1])
    decreases |p|
  {
    if p == [] || IsSep(p[|p| - 1]) then [] else Name(p[..|p| - 1]) + [p[|p| - 1]]
  }

  /** The name is the tail of the path. */
  lemma {:induction false} NameIsTail(p: string)
    ensures Name(p) == p[|p| - |Name(p)|..]
    decreases |p|
  {
    if p != [] && !IsSep(p[|p| - 1]) {
      var init := p[..|p| - 1];
      NameIsTail(init);
      assert init[|init| - |Name(init)|..] + [p[|p| - 1]] == p[|p| - |Name(p)|..];
    }
  }

  /** `name.rfind('.')`, or -1. */
  function LastDot(n: string): (i: int)
    ensures -1 <= i < |n|
    ensures i >= 0 ==> n[i] == '.'
    ensures forall k :: i < k < |n| ==> n[k] != '.'
    decreases |n|
  {
    if n == [] then -1 else if n[|n| - 1] == '.' then |n| - 1 else LastDot(n[..|n| - 1])
  }

  /** Whether the name has a suffix: a dot that is neither first nor last. */
  predicate HasSuffix(n: string)
  {
    0 < LastDot(n) < |n| - 1
  }

  /** `PurePath.suffix`. */
  function Suffix(p: string): string
  {
    var n := Name(p);
    if HasSuffix(n) then n[LastDot(n)..] else ""
  }

  /** `PurePath.stem`. */
  function Stem(p: string): string
  {
    var n := Name(p);
    if HasSuffix(n) then n[..LastDot(n)] else n
  }

  /** The name of `dir/n` is `n` when `n` has no separator. */
  lemma {:induction false} NameOfJoin(dir: string, n: string)
    requires NoSep(n)
    ensures Name(dir + "/" + n) == n
    decreases |n|
  {
    var p := dir + "/" + n;
    if n == [] {
      assert p[|p| - 1] == '/';
    } else {
      assert p[|p| - 1] == n[|n| - 1];
      assert p[..|p| - 1] == dir + "/" + n[..|n| - 1];
      NameOfJoin(dir, n[..|n| - 1]);
      assert n == n[..|n| - 1] + [n[|n| - 1]];
    }
  }

  /** The dot before a dot-free tail is the last one. */
  lemma {:induction false} LastDotBefore(a: string, b: string)
    requires '.' !in b
    ensures LastDot(a + "." + b) == |a|
    decreases |b|
  {
    var m := a + "." + b;
    if b == [] {
      assert m[|m| - 1] == '.';
    } else {
      assert m[|m| - 1] == b[|b| - 1] && b[|b| - 1] in b;
      assert m[..|m| - 1] == a + "." + b[..|b| - 1];
      assert '.' !in b[..|b| - 1] by {
        assert forall k :: 0 <= k < |b| - 1 ==> b[..|b| - 1][k] == b[k];
      }
      LastDotBefore(a, b[..|b| - 1]);
    }
  }

  /** The stem of `dir/a.b` is `a` when `a` is non-empty, `b` is non-empty
      and neither holds a separator nor `b` a dot: for a saved chat file
      `dir/n.json` the stem is the chat name, and for a chat name with a
      dot in it the part after the last dot is dropped. */
  lemma StemOfDotted(dir: string, a: string, b: string)
    requires a != [] && b != [] && NoSep(a) && NoSep(b) && '.' !in b
    ensures Stem(dir + "/" + a + "." + b) == a
    ensures Suffix(dir + "/" + a + "." + b) == "." + b
  {
    var m := a + "." + b;
    var p := dir + "/" + a + "." + b;
    NoSepDotted(a, b);
    assert p == dir + "/" + m;
    NameOfJoin(dir, m);
    LastDotBefore(a, b);
    assert Name(p) == m && LastDot(m) == |a| && HasSuffix(m);
    assert m[..|a|] == a;
    assert m[|a|..] == "." + b;
  }

  lemma NoSepDotted(a: string, b: string)
    requires NoSep(a) && NoSep(b)
    ensures NoSep(a + "." + b)
  {
    var m := a + "." + b;
    forall k | 0 <= k < |m|
      ensures !IsSep(m[k])
    {
      if k < |a| {
        assert m[k] == a[k];
      } else if k > |a| {
        assert m[k] == b[k - |a| - 1];
      }
    }
  }

  /** The file `dir/n.json` has stem `n` and suffix `.json`. */
  lemma StemOfChatFile(dir: string, n: string)
    requires n != [] && NoSep(n)
    ensures Stem(dir + "/" + n + ".json") == n
    ensures Suffix(dir + "/" + n + ".json") == ".json"
  {
    assert n + ".json" == n + "." + "json";
    assert dir + "/" + n + ".json" == dir + "/" + n + "." + "json";
    StemOfDotted(dir, n, "json");
  }

  /** A chat file: `{"Name", "Bot Path", "Temperature", "Model", "Chat",
      "Payload"}`; `Bot Path` and `Model` may be JSON null. */
  datatype ChatRecord = ChatRecord(
    name: string,
    botPath: Option<string>,
    temperature: real,
    model: Option<string>,
    chat: seq<Entry>,
    payload: seq<Msg>)

  /** The keys of every chat file the program writes. */
  const RecordKeys: set<string> := {"Name", "Bot Path", "Temperature", "Model", "Chat", "Payload"}

  /** What a path holds: a folder, a chat file, or a file that does not
      decode to a chat record. */
  datatype Node = Folder | ChatFile(record: ChatRecord) | OtherFile

  /** `open(p, "w")` followed by `json.dump(rec, f)`: a folder cannot be
      opened for writing, anything else is created or replaced. */
  function Written(nodes: map<string, Node>, p: string, rec: ChatRecord): map<string, Node>
  {
    if p in nodes && nodes[p].Folder? then nodes else nodes[p := ChatFile(rec)]
  }

  class Disk {
    var nodes: map<string, Node>

    constructor (nodes: map<string, Node>)
      ensures this.nodes == nodes
    {
      this.nodes := nodes;
    }

    /** `read_json_file(p)`: None for a missing path or one that does not
        decode. */
    function ReadChat(p: string): (r: Option<ChatRecord>)
      reads this
      ensures r.Some? <==> p in nodes && nodes[p].ChatFile?
    {
      if p in nodes && nodes[p].ChatFile? then Some(nodes[p].record) else None
    }

    /** Writes the record; `ok` is false when `p` is a folder, which raises. */
    method Write(p: string, rec: ChatRecord) returns (ok: bool)
      modifies this`nodes
      ensures ok <==> !(p in old(nodes) && old(nodes)[p].Folder?)
      ensures nodes == Written(old(nodes), p, rec)
      ensures ok ==> ReadChat(p) == Some(rec)
    {
      ok := !(p in nodes && nodes[p].Folder?);
      if ok {
        nodes := nodes[p := ChatFile(rec)];
      }
    }

    /** `Path(p).unlink()` of an existing file. */
    method Unlink(p: string)
      requires p in nodes && !nodes[p].Folder?
      modifies this`nodes
      ensures nodes == old(nodes) - {p}
    {
      nodes := nodes - {p};
    }
  }
}
