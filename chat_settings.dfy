/** The chat settings window `ChatSettings`: it names, saves and loads a chat
    file. Saving picks the file name (a default for a blank name, a
    " (i)" suffix against clashes), deletes the chat's previous file,
    updates the application log and writes the chat record. The spin box,
    the model combo box and the name field are reduced to the values they
    hold. */
module ChatSettingsWindow {
  import opened Text
  import opened Messages
  import opened Transcript
  import opened Files
  import opened ChatLog

  /** The name used when the name field is blank. */
  const DefaultChatName := "New Chat"
  /** The temperature a new chat starts with. */
  const DefaultTemperature: real := 0.7

  /** How `save_settings` ends: with the record written to `path` (or the
      write raising because `path` is a folder), or with the `NameError`
      raised when the chat is saved under its current target. */
  datatype SaveOutcome = Saved(path: string, written: bool) | NameUnbound

  /** The chat name: the stripped field, or the default when that is empty. */
  function ChatName(text: string): (r: string)
    ensures r != ""
    ensures !Blank(text) ==> r == Strip(text)
    ensures Blank(text) ==> r == DefaultChatName
  {
    StripShape(text);
    if Strip(text) == "" then DefaultChatName else Strip(text)
  }

  /** The `i`-th alternative path: `<base>/<stem> (i)`. */
  function Candidate(base: string, stem: string, i: nat): string
  {
    base + "/" + stem + " (" + NatToString(i) + ")"
  }

  /** Distinct counters give distinct alternatives. */
  lemma CandidateInjective(base: string, stem: string, i: nat, j: nat)
    requires Candidate(base, stem, i) == Candidate(base, stem, j)
    ensures i == j
  {
    var pre := base + "/" + stem + " (";
    var a, b := Candidate(base, stem, i), Candidate(base, stem, j);
    assert a == pre + NatToString(i) + ")";
    assert b == pre + NatToString(j) + ")";
    assert |NatToString(i)| == |NatToString(j)|;
    assert a[|pre|..|a| - 1] == NatToString(i);
    assert b[|pre|..|b| - 1] == NatToString(j);
    NatToStringInjective(i, j);
  }

  /** `file` is where a chat named `name` is saved when `nodes` is the file
      system: `<base>/<name>.json` when no file or folder is called
      `<base>/<name>` (the suffix-less path), otherwise the first free
      alternative `<base>/<stem> (k)`, with `.json` added. */
  ghost predicate FirstFree(nodes: map<string, Node>, base: string, name: string, file: string)
  {
    var dir := base + "/" + name;
    if dir !in nodes then file == dir + ".json"
    else exists k: nat ::
           && 1 <= k
           && Candidate(base, Stem(dir), k) !in nodes
           && (forall j: nat :: 1 <= j < k ==> Candidate(base, Stem(dir), j) in nodes)
           && file == Candidate(base, Stem(dir), k) + ".json"
  }

  /** The target is determined by the file system and the name. */
  lemma FirstFreeUnique(nodes: map<string, Node>, base: string, name: string, f: string, g: string)
    requires FirstFree(nodes, base, name, f) && FirstFree(nodes, base, name, g)
    ensures f == g
  {
    var dir := base + "/" + name;
    if dir in nodes {
      var stem := Stem(dir);
      var k1: nat :| 1 <= k1 && Candidate(base, stem, k1) !in nodes
        && (forall j: nat :: 1 <= j < k1 ==> Candidate(base, stem, j) in nodes)
        && f == Candidate(base, stem, k1) + ".json";
      var k2: nat :| 1 <= k2 && Candidate(base, stem, k2) !in nodes
        && (forall j: nat :: 1 <= j < k2 ==> Candidate(base, stem, j) in nodes)
        && g == Candidate(base, stem, k2) + ".json";
      assert !(k1 < k2) && !(k2 < k1);
    }
  }

  /** Only the suffix-less path is checked, so a new chat named like an
      existing chat file is saved over that file. */
  lemma ExistingChatFileOverwritten(nodes: map<string, Node>, base: string, name: string, rec: ChatRecord)
    requires base + "/" + name !in nodes
    requires base + "/" + name + ".json" in nodes && nodes[base + "/" + name + ".json"].ChatFile?
    ensures FirstFree(nodes, base, name, base + "/" + name + ".json")
    ensures Written(nodes, base + "/" + name + ".json", rec)[base + "/" + name + ".json"] == ChatFile(rec)
  {
  }

  /** The file system after `del_json_file(path)`. */
  function AfterDeleteJson(nodes: map<string, Node>, path: string): map<string, Node>
  {
    if DeletesJson(nodes, path) then nodes - {path} else nodes
  }

  /** Whether `del_json_file(path)` deletes: an existing file whose suffix
      is `.json` in any letter case. A folder named so cannot be unlinked;
      the error is caught. */
  predicate DeletesJson(nodes: map<string, Node>, path: string)
  {
    path in nodes && ToLowerAscii(Suffix(path)) == ".json" && !nodes[path].Folder?
  }

  /** The spin box range: a value set outside [0, 1] is clamped into it. */
  function Clamp(x: real): (r: real)
    ensures 0.0 <= r <= 1.0
    ensures 0.0 <= x <= 1.0 ==> r == x
    ensures x < 0.0 ==> r == 0.0
    ensures x > 1.0 ==> r == 1.0
  {
    if x < 0.0 then 0.0 else if x > 1.0 then 1.0 else x
  }

  class ChatSettings {
    /** The `Save/.temp.json` log and the file system. */
    const logs: Logs
    const disk: Disk
    /** The folder chat files are saved in (`Save/Chat`). */
    const base: string
    /** The model combo box's items. */
    const models: seq<string>

    /** The chat being edited: "" for a new chat, the loaded file, or the
        suffix-less target of a rename. */
    var chatPath: string
    var botSettingPath: Option<string>
    var chatHist: seq<Entry>
    var payload: seq<Msg>
    /** The name field, the spin box and the combo box's current text. */
    var nameText: string
    var temperature: real
    var model: string

    constructor (logs: Logs, disk: Disk, base: string, models: seq<string>, temperature: real)
      ensures this.logs == logs && this.disk == disk && this.base == base && this.models == models
      ensures chatPath == "" && botSettingPath == Some("") && chatHist == [] && payload == []
      ensures nameText == "" && this.temperature == Clamp(temperature)
      ensures model == if models == [] then "" else models[0]
    {
      this.logs := logs;
      this.disk := disk;
      this.base := base;
      this.models := models;
      chatPath := "";
      botSettingPath := Some("");
      chatHist := [];
      payload := [];
      nameText := "";
      this.temperature := Clamp(temperature);
      model := if models == [] then "" else models[0];
    }

    /** `del_json_file`: true exactly when the file was deleted. */
    method DelJsonFile(path: string) returns (ok: bool)
      modifies disk`nodes
      ensures ok <==> DeletesJson(old(disk.nodes), path)
      ensures disk.nodes == AfterDeleteJson(old(disk.nodes), path)
    {
      if path in disk.nodes && ToLowerAscii(Suffix(path)) == ".json" {
        if disk.nodes[path].Folder? {
          return false;
        }
        disk.Unlink(path);
        return true;
      }
      return false;
    }

    /** The record `save_settings` writes. */
    function Record(name: string): ChatRecord
      reads this
    {
      ChatRecord(name, botSettingPath, temperature, Some(model), chatHist, payload)
    }

    /** `save_settings`. When the target `<base>/<name>` equals the current
        chat path the save fails with an unbound name before anything is
        written. Otherwise, when a chat path is set, its file is deleted and
        the path becomes the target; the first free file name is chosen; the stem
        moves to the end of the chat list and becomes `LastChat`'s file;
        the record is written there. */
    method SaveSettings() returns (outcome: SaveOutcome)
      modifies this`chatPath, disk`nodes, logs`chatList, logs`lastChat
      ensures var dir := base + "/" + ChatName(nameText);
        outcome == NameUnbound <==> old(chatPath) == dir
      ensures outcome == NameUnbound ==> unchanged(this) && unchanged(disk) && unchanged(logs)
      ensures outcome.Saved? ==>
        var name := ChatName(nameText);
        var cleared := if old(chatPath) != "" then AfterDeleteJson(old(disk.nodes), old(chatPath)) else old(disk.nodes);
        && chatPath == (if old(chatPath) != "" then base + "/" + name else "")
        && FirstFree(cleared, base, name, outcome.path)
        && logs.chatList == Touched(old(logs.chatList), Stem(outcome.path))
        && logs.lastChat == outcome.path
        && disk.nodes == Written(cleared, outcome.path, Record(name))
        && (outcome.written <==> !(outcome.path in cleared && cleared[outcome.path].Folder?))
    {
      var name := Strip(nameText);
      if name == "" {
        name := DefaultChatName;
      }
      var dir := base + "/" + name;
      if chatPath == dir {
        return NameUnbound;
      }
      if chatPath != "" {
        var _ := DelJsonFile(chatPath);
        chatPath := dir;
      }
      outcome := WriteChat(dir, name);
    }

    /** `save_settings` once the previous file is gone: the first free file
        name, the chat list and `LastChat`, then the record. */
    method WriteChat(dir: string, name: string) returns (outcome: SaveOutcome)
      requires dir == base + "/" + name
      modifies disk`nodes, logs`chatList, logs`lastChat
      ensures outcome.Saved?
      ensures FirstFree(old(disk.nodes), base, name, outcome.path)
      ensures logs.chatList == Touched(old(logs.chatList), Stem(outcome.path))
      ensures logs.lastChat == outcome.path
      ensures disk.nodes == Written(old(disk.nodes), outcome.path, Record(name))
      ensures outcome.written <==> !(outcome.path in old(disk.nodes) && old(disk.nodes)[outcome.path].Folder?)
    {
      var target := FreeTarget(dir, name);
      var file := target + ".json";
      logs.Touch(Stem(file));
      logs.SetLastChat(file);
      var ok := disk.Write(file, Record(name));
      return Saved(file, ok);
    }

    /** The " (i)" loop of `save_settings`: while the suffix-less path
        exists, the next alternative of the original stem is tried. */
    method FreeTarget(dir: string, ghost name: string) returns (target: string)
      requires dir == base + "/" + name
      ensures target !in disk.nodes
      ensures FirstFree(disk.nodes, base, name, target + ".json")
    {
      target := dir;
      if dir !in disk.nodes {
        return;
      }
      var stem := Stem(dir);
      var i: nat := 1;
      ghost var seen: set<string> := {};
      while target in disk.nodes
        invariant i >= 1
        invariant i == 1 ==> target == dir
        invariant i > 1 ==> target == Candidate(base, stem, i - 1)
        invariant forall j: nat :: 1 <= j < i - 1 ==> Candidate(base, stem, j) in disk.nodes
        invariant seen <= disk.nodes.Keys
        invariant |seen| == if i == 1 then 0 else i - 2
        invariant forall x :: x in seen ==> exists j: nat :: 1 <= j < i - 1 && x == Candidate(base, stem, j)
        decreases |disk.nodes.Keys| - |seen|, if i == 1 then 1 else 0
      {
        if i > 1 {
          assert target !in seen by {
            forall x | x in seen
              ensures x != target
            {
              var j: nat :| 1 <= j < i - 1 && x == Candidate(base, stem, j);
              if x == target {
                CandidateInjective(base, stem, j, i - 1);
              }
            }
          }
          seen := seen + {target};
          assert |seen| <= |disk.nodes.Keys| by {
            SubsetCard(seen, disk.nodes.Keys);
          }
        }
        target := Candidate(base, stem, i);
        i := i + 1;
      }
      assert i > 1;
    }

    /** `loadSettings(path)`: the chat path is set first. An empty path
        resets the history, the payload, the temperature and the model; a
        readable chat file fills every field from its record (the model
        only when the combo box has it); an unreadable one changes nothing
        else. */
    method LoadSettings(path: string)
      modifies this`chatPath, this`botSettingPath, this`nameText, this`temperature, this`model,
               this`chatHist, this`payload
      ensures chatPath == path
      ensures path == "" ==>
        && chatHist == [] && payload == [] && temperature == DefaultTemperature
        && model == (if models == [] then "" else models[0])
        && botSettingPath == old(botSettingPath) && nameText == old(nameText)
      ensures path != "" && disk.ReadChat(path).None? ==>
        && chatHist == old(chatHist) && payload == old(payload) && temperature == old(temperature)
        && model == old(model) && botSettingPath == old(botSettingPath) && nameText == old(nameText)
      ensures path != "" && disk.ReadChat(path).Some? ==>
        var rec := disk.ReadChat(path).value;
        && botSettingPath == rec.botPath && nameText == rec.name
        && temperature == Clamp(rec.temperature)
        && model == (if rec.model.Some? && rec.model.value in models then rec.model.value else old(model))
        && chatHist == rec.chat && payload == rec.payload
    {
      chatPath := path;
      if path == "" {
        temperature := DefaultTemperature;
        model := if models == [] then "" else models[0];
        chatHist := [];
        payload := [];
        return;
      }
      var settings := disk.ReadChat(path);
      if settings.None? {
        return;
      }
      var rec := settings.value;
      botSettingPath := rec.botPath;
      nameText := rec.name;
      temperature := Clamp(rec.temperature);
      if rec.model.Some? && rec.model.value in models {
        model := rec.model.value;
      }
      chatHist := rec.chat;
      payload := rec.payload;
    }
  }

  /** A subset is no larger than its superset. */
  lemma {:induction false} SubsetCard<T>(a: set<T>, b: set<T>)
    requires a <= b
    ensures |a| <= |b|
    decreases |a|
  {
    if a != {} {
      var x :| x in a;
      SubsetCard(a - {x}, b - {x});
    }
  }

  /** A saved chat's file is named after its stem: saving a chat whose name
      holds no separator under `<base>/<name>.json` puts `name` last in the
      chat list. */
  lemma SavedStemIsName(base: string, name: string)
    requires name != "" && NoSep(name)
    ensures Stem(base + "/" + name + ".json") == name
  {
    StemOfChatFile(base, name);
  }
}
