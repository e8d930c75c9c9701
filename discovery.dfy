/** Start-up: `find_json_with_format` looks for the first chat file in the
    save folder whose JSON object has every required key, and the result
    decides whether the chat window or the empty-start window is shown
    (`noChats`). The same search is in `Code/main.py` and
    `Gen_1/QT_Beginner.py`; only the required keys differ. The folder is
    the sequence of paths the `*.json` glob yields, each with what reading
    it as JSON gives. */
module Discovery {
  import opened ChatLog
  import opened Files

  /** The keys a chat file must have for the latest generation. */
  const SettingsKeys: set<string> := {"Name", "Bot Path", "Temperature", "Model", "Chat"}
  /** The keys a chat file must have for the first generation. */
  const Gen1SettingsKeys: set<string> := {"ID", "Name", "Character", "Model", "Datasets", "Chat History"}

  /** What `json.load` makes of a file: an object with its keys, another
      JSON value, one of the three caught errors, or another exception. */
  datatype Content =
    | JsonObject(keys: set<string>)
    | JsonOther
    | DecodeError
    | UnicodeError
    | PermissionDenied
    | OtherError

  datatype DirEntry = DirEntry(path: string, isFile: bool, content: Content)

  datatype Folder = Missing | NotADirectory | Directory(entries: seq<DirEntry>)

  /** The search result: a path, None, or an exception that escapes. */
  datatype Search = Found(path: string) | NotFound | Raised

  /** A file whose JSON object has every required key. */
  predicate Matches(e: DirEntry, keys: set<string>)
  {
    e.isFile && e.content.JsonObject? && keys <= e.content.keys
  }

  /** An entry the loop passes over: not a file, a non-matching JSON value,
      or a decode, Unicode or permission error. */
  predicate Skipped(e: DirEntry, keys: set<string>)
  {
    !e.isFile || (!e.content.OtherError? && !Matches(e, keys))
  }

  /** The loop over the glob results, returning at the first match. */
  function FirstMatch(entries: seq<DirEntry>, keys: set<string>): (r: Search)
    ensures r.Found? ==> exists i ::
      && 0 <= i < |entries| && entries[i].path == r.path && Matches(entries[i], keys)
      && (forall j :: 0 <= j < i ==> Skipped(entries[j], keys))
    ensures r.NotFound? <==> forall j :: 0 <= j < |entries| ==> Skipped(entries[j], keys)
    ensures r.Raised? ==> exists i ::
      && 0 <= i < |entries| && entries[i].isFile && entries[i].content.OtherError?
      && (forall j :: 0 <= j < i ==> Skipped(entries[j], keys))
    decreases |entries|
  {
    if entries == [] then NotFound
    else if Matches(entries[0], keys) then Found(entries[0].path)
    else if Skipped(entries[0], keys) then
      var r := FirstMatch(entries[1..], keys);
      assert forall j :: 1 <= j < |entries| ==> entries[j] == entries[1..][j - 1];
      r
    else Raised
  }

  /** `find_json_with_format(folder, keys)`: None for a missing folder or a
      path that is not a folder. */
  function FindJsonWithFormat(folder: Folder, keys: set<string>): (r: Search)
    ensures !folder.Directory? ==> r == NotFound
    ensures folder.Directory? ==> r == FirstMatch(folder.entries, keys)
  {
    if folder.Directory? then FirstMatch(folder.entries, keys) else NotFound
  }

  /** The match is the first one: every earlier entry is skipped, and the
      result does not depend on what follows it. */
  lemma {:induction false} FirstMatchIsFirst(pre: seq<DirEntry>, e: DirEntry, post: seq<DirEntry>, keys: set<string>)
    requires forall j :: 0 <= j < |pre| ==> Skipped(pre[j], keys)
    requires Matches(e, keys)
    ensures FirstMatch(pre + [e] + post, keys) == Found(e.path)
    decreases |pre|
  {
    var s := pre + [e] + post;
    if pre == [] {
      assert s[0] == e;
    } else {
      assert s[0] == pre[0];
      assert s[1..] == pre[1..] + [e] + post;
      FirstMatchIsFirst(pre[1..], e, post, keys);
    }
  }

  /** The required keys of the latest generation leave out `Payload`, and a
      chat file written by it has all of them, so it is found. */
  lemma SavedChatFileMatches(path: string)
    ensures "Payload" !in SettingsKeys
    ensures Matches(DirEntry(path, true, JsonObject(RecordKeys)), SettingsKeys)
  {
  }

  /** A chat file of the latest generation never satisfies the first
      generation's keys. */
  lemma SavedChatFileMissesGen1Keys(path: string)
    ensures !Matches(DirEntry(path, true, JsonObject(RecordKeys)), Gen1SettingsKeys)
  {
    assert "ID" in Gen1SettingsKeys && "ID" !in RecordKeys;
  }

  /** What the start-up does with the search: `noChats` is set and a window
      shown, or the exception ends the program. */
  datatype Startup = ChatWindowShown | EmptyStartShown | Crashed

  /** The start-up decision of both generations; `noChats` holds exactly
      for `EmptyStartShown`. */
  function StartupWindow(folder: Folder, keys: set<string>): (r: Startup)
    ensures r == EmptyStartShown <==> FindJsonWithFormat(folder, keys).NotFound?
    ensures r == ChatWindowShown <==> FindJsonWithFormat(folder, keys).Found?
  {
    match FindJsonWithFormat(folder, keys)
    case Found(_) => ChatWindowShown
    case NotFound => EmptyStartShown
    case Raised => Crashed
  }

  /** `noChats` after start-up. */
  function NoChats(folder: Folder, keys: set<string>): (r: bool)
    requires !StartupWindow(folder, keys).Crashed?
    ensures r <==> forall e :: e in ChatEntries(folder) ==> Skipped(e, keys)
  {
    StartupWindow(folder, keys) == EmptyStartShown
  }

  /** The entries of a folder; none for a missing path or a file. */
  function ChatEntries(folder: Folder): seq<DirEntry>
  {
    if folder.Directory? then folder.entries else []
  }

  /** Where `quick_select_chat` sends a side-list item. */
  datatype Route = NewChatSettings | OpenChat(name: string)

  /** The new-chat item opens the settings for a new chat; any other item
      opens the chat file of that name. */
  function QuickSelect(item: string): (r: Route)
    ensures r == NewChatSettings <==> item == NewChatItem
    ensures r.OpenChat? ==> r.name == item
  {
    if item == NewChatItem then NewChatSettings else OpenChat(item)
  }

  /** Every chat name in the side list opens a chat, and only the first
      item creates one. */
  lemma SideListRoutes(l: seq<string>, k: nat)
    requires NewChatItem !in l && k < |Display(l)|
    ensures QuickSelect(Display(l)[k]) == if k == 0 then NewChatSettings else OpenChat(l[|l| - k])
  {
    if k > 0 {
      assert Display(l)[k] == Reversed(l)[k - 1] == l[|l| - k];
    }
  }
}
