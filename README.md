# Custom-ChatUI conversation bookkeeping, modelled in Dafny

Custom-ChatUI is a PySide desktop chat client for an OpenAI-compatible
inference server (vLLM). This project models the conversation and context
bookkeeping behind its chat windows, across the repository's generations:

- **Gen_3 `LLMClient`** (`gen3_client.dfy`). It holds:
  - the visible message list, the wire payload list and the persona preset;
  - the compaction rule that builds what is sent (`_build_payload`);
  - the streaming line loop with its `[DONE]` sentinel and abort flag;
  - `export_payload`/`import_payload`.
- **The line scanner** (`sse.dfy`). It is the specification every streaming
  loop is proved against: `data: ` framing, `[DONE]`, failures and aborts.
- **The latest `ChatMain` window** (`chat_main.dfy`, over `transcript.dfy`,
  `chat_log.dfy` and `files.dfy`). It covers:
  - sending, editing, deleting and regenerating on the timestamped
    transcript;
  - replaying the transcript into the client;
  - loading a chat, with the most-recently-used chat list;
  - saving a chat.

  `Code/Widgets/chatMain.py` and `Widgets/chatMain.py` are one class. They
  differ only in whether a sent message has its newlines turned into
  `<br/>`, and `ChatMain.normalizesInput` records which version an object
  is.
- **The `ChatSettings` window** (`chat_settings.dfy`):
  - default naming;
  - the " (i)" uniquifier;
  - deleting the old file;
  - the chat list and `LastChat`;
  - the saved record;
  - `loadSettings`.
- **Start-up discovery** (`discovery.dfy`). `find_json_with_format`, the
  `noChats` decision and the side-list routing of `Code/main.py` and
  `Gen_1/QT_Beginner.py`.
- **The first generation** (`gen1_client.dfy`, `gen1_chat_ui.dfy`,
  `qt_beginner.dfy`):
  - its `LLMClient`, which folds failures into the reply text;
  - the stand-alone `ChatWindow`, with compaction that falls back to
    trimming, two-entry delete and edit, manual load validation and the
    display index map;
  - the Enter-key guard of the main window.

The network, threads and Qt are replaced by their inputs:
- A summariser is a function `seq<Msg> -> Option<string>`, where `None`
  stands for the exception.
- A streamed HTTP body is a sequence of lines, any of which may be a read
  failure.
- Decoding a data payload is an oracle returning an exception, a delta
  without content, or its content.
- The file system is a map from path to folder, chat record or other file.
- The wall clock is a `now` parameter.
- Another thread raising the abort flag is the index of the line it
  precedes.
- Signals are appended to an event log.

Several behaviours are modelled as the code has them and proved as such:
- **Duplicated user message.** After an edit or a regenerate, the user
  text is in the payload twice: `ChatMain.EditSendsUserTextTwice` and
  `ChatMain.RegenerateSendsUserTextTwice`.
- **Duplicated preset.** The preset entry is repeated in what is sent:
  `ChatMain.RebuiltPayloadRepeatsPreset`.
- **Preset kept on import.** The exported preset entry stays in the
  payload when a preset is already set: `Gen3Client.ImportKeepsPresetEntry`.
- **Regenerate pops first.** A regenerate with no user entry still drops
  the trailing reply: `Transcript.RegenerateDropsOrphanReply`.
- **Unbound name.** Saving settings under the chat's current target ends in
  the `NameError` of an unbound variable:
  `ChatSettingsWindow.SaveOutcome.NameUnbound`.
- **Suffix-less existence check.** The uniquifier checks the path without
  `.json`, so an existing chat file is overwritten:
  `ChatSettingsWindow.ExistingChatFileOverwritten`.

Three defects are outside what can be modelled:
- `Gen_1/llm_client.py` cannot be imported. Line 14 subtracts a string from
  a string, so `Gen_1/QT_Beginner.py` never starts. Its client is modelled
  as it would run with a valid admin URL.
- `Code/Widgets/chatMain.py:105` constructs `LLMClient(fd)`. The client's
  constructor takes no argument (`Gen_3/llmClient.py:27`). The window is
  modelled over the zero-argument Gen_3 client.
- `Gen_1/QT_Beginner.py`'s `MainWindow` never assigns `self.input` or
  `self.chat`, yet `keyPressEvent` reads `self.input` at line 78 and
  `on_token`/`on_done` use `self.chat`. Every key press raises
  `AttributeError` before the Shift test or the blank-input guard. The
  handler is modelled as if `input` were the window's input box.

## Model

Each `ChatMain.ChatMain` row cites `Code/Widgets/chatMain.py`. The same
members model the other copy, `Widgets/chatMain.py`: `SendMessage` at
399-439, `OnDone` at 100-140, `SaveChat` at 360-377, `LoadChat` at 292-328,
`EditLastUserMessage` at 488-535, `DeleteLastUserExchange` at 537-555,
`RegenerateLastResponse` at 557-587 and `RebuildLlmContext` at 589-605.
`Discovery.FindJsonWithFormat` and `Discovery.StartupWindow` also model
`Gen_1/QT_Beginner.py` at 337-357 and 370-375.

| member | source | states |
|---|---|---|
| Text.StripShape | Gen_3/llmClient.py:48 | `str.strip()`: the stripped text is a slice of the input with whitespace only outside it and non-whitespace at both ends |
| Text.StripIdempotent | Code/Widgets/chatMain.py:465 | stripping twice is stripping once |
| Text.NatToStringInjective | Widgets/chatSettings.py:227 | `str(i)` is injective, so distinct counters give distinct names |
| Messages.WithPreset | Gen_3/llmClient.py:179-188 | the preset entry comes first exactly when the preset is non-empty, then the list verbatim |
| Messages.TokenTextOfTokens | Gen_1/llm_client.py:118-119 | the emitted token events carry exactly the concatenated pieces |
| Sse.LineStep | Gen_3/llmClient.py:148-163 | one loop iteration: a read failure or a malformed chunk halts as broken, a raised abort flag halts as stopped, a line without `data: ` is skipped, `[DONE]` halts as finished, a content delta is one token |
| Sse.ScanFrom | Gen_3/llmClient.py:148-163 | the scan of a body is its first line's step followed by the scan of the rest |
| Sse.ScanWellFormed | Gen_3/llmClient.py:152-163 | a body of one data line per token followed by `[DONE]` yields exactly those tokens in order, whatever follows |
| Sse.NeverStoppedWithoutAbort | Gen_3/llmClient.py:149-150 | without an abort the scan ends finished or broken, never stopped |
| Sse.TokensBeforeAbort | Gen_3/llmClient.py:149-150 | an abort seen at line k lets at most k tokens through; one before the first line lets none through |
| Sse.NonDataLineSkipped | Gen_3/llmClient.py:152-153 | removing a line without the `data: ` prefix does not change the scan |
| Sse.DoneEndsReading | Gen_3/llmClient.py:155-157 | nothing after `data: [DONE]` influences the result |
| Sse.ErrorNote | Gen_1/llm_client.py:122 | the error note is the exception text framed by a newline and `[ERROR] ` before it and a newline after it |
| Sse.TokensSpellReply | Gen_1/llm_client.py:118-131 | the tokens emitted, including the error note of a failure, concatenate to the reply that `done` carries |
| Gen3Client.BuildPayload | Gen_3/llmClient.py:83-106 | up to 24 messages: preset entry (if any) then the list verbatim; above 24: preset, one `Conversation summary:\n` entry of all but the last 16, then the last 16; None exactly when that summary raised |
| Gen3Client.CompactedLength | Gen_3/llmClient.py:96-102 | a compacted payload has 17 entries, 18 with a preset |
| Gen3Client.FoldImportWithPreset | Gen_3/llmClient.py:197-203 | once a preset is set, every imported entry goes to the payload and the user/assistant ones to the visible list |
| Gen3Client.ExportImportRoundTrip | Gen_3/llmClient.py:179-203 | importing an exported payload into a client without a preset restores the preset and the payload exactly, and the visible list gets the user/assistant entries |
| Gen3Client.ImportKeepsPresetEntry | Gen_3/llmClient.py:198 | with a preset already set, the exported preset entry stays first in the imported payload |
| Gen3Client.LLMClient.SetModel | Gen_3/llmClient.py:44-45 | the model becomes the given value |
| Gen3Client.LLMClient.SetPreset | Gen_3/llmClient.py:47-48 | the preset becomes the stripped text |
| Gen3Client.LLMClient.AddUserMessage | Gen_3/llmClient.py:53-57 | the same user entry is appended to both lists and nothing else changes |
| Gen3Client.LLMClient.Generate | Gen_3/llmClient.py:59-78 | without a model exactly one "No model selected" error and no request; otherwise abort flag and accumulator cleared and one request started |
| Gen3Client.LLMClient.ImportPayload | Gen_3/llmClient.py:191-203 | the loop leaves the client in the state of the entry-by-entry fold from cleared lists and the current preset |
| Gen3Client.LLMClient.AbortGeneration | Gen_3/llmClient.py:216-217 | the abort flag is raised |
| Gen3Client.LLMClient.StreamRequest | Gen_3/llmClient.py:133-174 | a failing summariser ends the thread with no effect; otherwise the reply is the concatenated tokens, the events are the tokens then `done`/`error`/nothing, and only a finished scan appends one assistant entry to both lists |
| Gen3Client.LLMClient.ScanBody | Gen_3/llmClient.py:148-167 | the line loop computes `Sse.Scan`: accumulated text is the concatenated tokens, events are the tokens then an error, and the abort flag is raised exactly when the scan stopped |
| Gen3Client.LLMClient.ReadLine | Gen_3/llmClient.py:149-163 | one iteration performs `Sse.LineStep` with its effects |
| Transcript.Replay | Code/Widgets/chatMain.py:669-673 | one role/content pair per transcript entry, in order |
| Transcript.LastUserIndex | Code/Widgets/chatMain.py:562-567 | the index of the last user entry, no user entry after it; None exactly when there is no user entry |
| Transcript.FindLastUser | Code/Widgets/chatMain.py:562-567 | the backward loop finds `LastUserIndex` |
| Transcript.PopReply | Code/Widgets/chatMain.py:570-574 | popping the reply keeps everything up to the user entry and drops at most the one assistant entry after it |
| Transcript.EditChangesOnlyLastExchange | Code/Widgets/chatMain.py:556-578 | an edit changes only the last user entry's content and timestamp, drops at most its following assistant entry, and leaves the prefix unchanged |
| Transcript.DeleteRemovesLastExchange | Code/Widgets/chatMain.py:605-619 | a delete removes the last user entry and its following assistant entry if present; the length drops by 1 or 2 and the prefix is unchanged |
| Transcript.RegenerateDropsOrphanReply | Code/Widgets/chatMain.py:626-639 | a transcript holding one assistant entry loses it although no user entry exists |
| Transcript.NormalizedHasNoNewline | Code/Widgets/chatMain.py:471-472 | after unescaping and replacing, no newline remains, and text without newlines or backslashes is unchanged |
| Transcript.EscapeAndNewlineAgree | Code/Widgets/chatMain.py:471-472 | a literal `\n` escape and a real newline are stored alike |
| ChatLog.Logs.Touch | Code/Widgets/chatMain.py:375-378 | the stem ends up in the chat list; a duplicate-free list becomes the list without it followed by it |
| ChatLog.TouchedKeepsLast | Code/Widgets/chatMain.py:375-376 | the list is unchanged when the stem is last and occurs nowhere else (a stem that also occurs earlier has that first occurrence removed, as `TouchedWithDuplicates` shows) |
| ChatLog.TouchedMovesToEnd | Code/Widgets/chatMain.py:375-378 | on a duplicate-free list the stem moves to the end, the others keep their order and the list stays duplicate-free |
| ChatLog.TouchedIsWithoutThenName | Code/Widgets/chatMain.py:375-378 | on a duplicate-free list the update is the other names in their order, then the stem |
| ChatLog.TouchedWithDuplicates | Widgets/chatMain.py:312-315 | `list.remove` drops only the first occurrence, so with a duplicated stem the stem need not end up last |
| ChatLog.Reversed | Code/Widgets/chatMain.py:390-391 | element k of the result is element n-1-k of the list |
| ChatLog.Logs.SetLastChat | Code/Widgets/chatMain.py:346-353 | `LastChat` becomes the path |
| Files.Name | Code/Widgets/chatMain.py:373 | the final component of a path holds no separator and, when shorter than the path, is preceded by one |
| Files.NameIsTail | Code/Widgets/chatMain.py:373 | the final component is a tail of the path |
| Files.StemOfChatFile | Code/Widgets/chatMain.py:373 | the stem of `<dir>/<name>.json` is `name` and its suffix is `.json` |
| Files.Disk.ReadChat | Code/Widgets/chatMain.py:794-813 | a path reads as a record exactly when it holds a chat file |
| Files.Disk.Write | Code/Widgets/chatMain.py:438-442 | writing fails exactly on a folder; otherwise the record is read back |
| ChatMain.ChatMain.SendMessage | Code/Widgets/chatMain.py:464-507 | blank input changes nothing; otherwise one user entry with the stored text (newlines normalised in this version, the stripped input as is in the other), the same text to both client lists, a pending reply and one request |
| ChatMain.ChatMain.OnToken | Code/Widgets/chatMain.py:172-183 | a token is accumulated only while a reply is pending |
| ChatMain.ChatMain.OnDone | Code/Widgets/chatMain.py:185-225 | ignored when nothing is pending; otherwise exactly one assistant entry with the full text and response time, pending cleared, chat saved |
| ChatMain.ChatMain.GetLastUserMessage | Code/Widgets/chatMain.py:549-554 | the content of the last user entry, None exactly when there is none |
| ChatMain.ChatMain.RebuildLlmContext | Code/Widgets/chatMain.py:657-673 | the client payload becomes the preset entry (if any) then the replayed transcript |
| ChatMain.ChatMain.EditLastUserMessage | Code/Widgets/chatMain.py:556-603 | blank text or no user entry changes nothing; otherwise the transcript is `AfterEdit`, the payload is the replay plus the new text again, a reply is pending and the chat is saved |
| ChatMain.ChatMain.ReviseEntry | Code/Widgets/chatMain.py:569-601 | the edit once the user entry is chosen: the transcript and payload updates and the request |
| ChatMain.ChatMain.DeleteLastUserExchange | Code/Widgets/chatMain.py:605-623 | without a user entry nothing changes; otherwise the transcript is `AfterDelete`, the payload is rebuilt and the chat saved |
| ChatMain.ChatMain.RegenerateLastResponse | Code/Widgets/chatMain.py:625-655 | empty transcript: nothing; otherwise a trailing assistant entry is popped, and with a user entry left the payload is the replay plus the last user text and a request starts, with no new transcript entry |
| ChatMain.ChatMain.ResendLastUser | Code/Widgets/chatMain.py:632-655 | after the pop: without a user entry nothing changes; otherwise the last user text is resent over the replayed transcript |
| ChatMain.ChatMain.Resend | Code/Widgets/chatMain.py:645-655 | the payload is the replayed transcript plus the text, the text joins the visible list, a reply is pending and one request starts |
| ChatMain.ChatMain.FillChatList | Code/Widgets/chatMain.py:388-391 | the side list is "Create New Chat [+]" followed by the chat list reversed |
| ChatMain.ChatMain.SaveChat | Code/Widgets/chatMain.py:425-442 | nothing without an open chat; otherwise the record (name, bot path, temperature, model, transcript, exported payload) is written to it |
| ChatMain.ChatMain.LoadChat | Code/Widgets/chatMain.py:355-391 | an empty path opens the first chat file or nothing; path and `LastChat` are set first; an unreadable file ends the load; otherwise `Opened`: name, transcript, stem moved to the end of the chat list, then bot, model, payload, temperature and side list |
| ChatMain.ChatMain.OpenRecord | Code/Widgets/chatMain.py:362-391 | the part of the load after the file is read, as `Opened` states it |
| ChatMain.ChatMain.ShowRecord | Code/Widgets/chatMain.py:366-378 | the name and transcript shown are the record's, and the chat list is updated by `Touched` with the file's stem |
| ChatMain.ChatMain.ApplyBot | Code/Widgets/chatMain.py:383-391 | the preset is the stripped bot description, the import is folded from that preset, model and temperature come from the record and the side list is refilled |
| ChatMain.EditSendsUserTextTwice | Code/Widgets/chatMain.py:581-600 | after an edit the payload holds the new text as the replayed user entry and again as the appended one |
| ChatMain.RegenerateSendsUserTextTwice | Code/Widgets/chatMain.py:642-654 | after a regenerate the payload ends with the last user text twice |
| ChatMain.RebuiltPayloadRepeatsPreset | Code/Widgets/chatMain.py:662-666 | with a preset, the payload built from a rebuilt context begins with the preset entry twice |
| ChatSettingsWindow.ChatName | Widgets/chatSettings.py:206-208 | the stripped name, or "New Chat" when blank; never empty |
| ChatSettingsWindow.CandidateInjective | Widgets/chatSettings.py:227-228 | distinct counters give distinct alternative names |
| ChatSettingsWindow.FirstFreeUnique | Widgets/chatSettings.py:223-230 | the chosen file is determined by the file system and the name |
| ChatSettingsWindow.ExistingChatFileOverwritten | Widgets/chatSettings.py:223 | a chat file `<name>.json` does not count as a clash and is overwritten |
| ChatSettingsWindow.Clamp | Widgets/chatSettings.py:165 | a temperature outside [0, 1] is clamped into the spin box range |
| ChatSettingsWindow.ChatSettings.DelJsonFile | Widgets/chatSettings.py:149-159 | true exactly when an existing non-folder path with a `.json` suffix (any case) is deleted; otherwise nothing changes |
| ChatSettingsWindow.ChatSettings.SaveSettings | Widgets/chatSettings.py:198-256 | the current target as chat path fails unbound with nothing changed; otherwise, when a chat path is set, its file is deleted and the path becomes the target; the first free file gets the record, the stem and `LastChat` |
| ChatSettingsWindow.ChatSettings.WriteChat | Widgets/chatSettings.py:223-254 | the first free file name is chosen, the stem moves to the end of the chat list, `LastChat` is that file, and the six-key record is written |
| ChatSettingsWindow.ChatSettings.FreeTarget | Widgets/chatSettings.py:223-229 | the " (i)" loop ends at the first alternative that does not exist |
| ChatSettingsWindow.ChatSettings.LoadSettings | Widgets/chatSettings.py:258-281 | "" resets temperature to 0.7, the first model, and empty chat and payload; an unreadable path changes only the chat path; a record sets the fields, clamps the temperature and keeps the model only if it is offered |
| ChatSettingsWindow.SavedStemIsName | Widgets/chatSettings.py:230-238 | without a clash, the stem put in the chat list is the chat name |
| Discovery.FirstMatch | Code/main.py:36-50 | the result is the first matching file after only skipped ones; None exactly when every entry is skipped; another exception escapes |
| Discovery.FindJsonWithFormat | Code/main.py:25-32 | a missing folder or a non-folder gives None |
| Discovery.FirstMatchIsFirst | Code/main.py:36-46 | a match after skipped entries is found whatever follows it |
| Discovery.SavedChatFileMatches | Code/main.py:14 | the required keys leave out `Payload`, and a written chat record has them all |
| Discovery.SavedChatFileMissesGen1Keys | Gen_1/QT_Beginner.py:18 | a latest-generation chat file never satisfies the first generation's keys |
| Discovery.StartupWindow | Code/main.py:240-248 | the empty-start window exactly when no file matches, the chat window exactly when one does |
| Discovery.NoChats | Code/main.py:240-248 | `noChats` holds exactly when every entry is skipped |
| Discovery.QuickSelect | Code/main.py:175-180 | "Create New Chat [+]" opens the new-chat settings and any other item opens that chat |
| Discovery.SideListRoutes | Code/main.py:175-180 | item 0 of the side list creates a chat, and item k opens the k-th most recent chat |
| Gen1Client.ContextMessages | Gen_1/llm_client.py:56-64 | below 24 the list itself; from 24 on, a raw summary entry then 17 entries in total; None exactly when the summariser raised |
| Gen1Client.ContextKeepsRecent | Gen_1/llm_client.py:56-64 | what is sent is below 24 entries and ends with the last 16 (or all) messages |
| Gen1Client.LLMClient.AddUserMessage | Gen_1/llm_client.py:42-44 | exactly one user entry is appended |
| Gen1Client.LLMClient.Generate | Gen_1/llm_client.py:46-51 | the accumulator is cleared and one request started |
| Gen1Client.LLMClient.StreamRequest | Gen_1/llm_client.py:91-131 | a failing summariser ends the thread with no effect; otherwise the reply is the tokens plus the error note of a failure, recorded as one assistant entry, emitted as tokens, and carried by `done` |
| Gen1Client.LLMClient.ScanBody | Gen_1/llm_client.py:106-119 | the loop computes `Sse.Scan` without abort; the accumulated text is the concatenated tokens |
| Gen1Client.LLMClient.ReadLine | Gen_1/llm_client.py:107-119 | one iteration skips blank and non-data lines, stops at `[DONE]`, and accumulates and emits a content delta |
| Gen1Client.LLMClient.WaitForServer | Gen_1/llm_client.py:153-166 | at most `timeout` polls; ready exactly when one of the first `timeout` polls succeeds, stopping at the first success |
| Gen1ChatUi.ContextMessages | Gen_1/chat_ui.py:339-361 | below 24 the list itself; from 24 on, it ends with the last 16 |
| Gen1ChatUi.CompactionFallsBack | Gen_1/chat_ui.py:343-361 | from 24 on, the prefixed summary entry is present exactly when the summariser answered, and the result is only the last 16 when it raised |
| Gen1ChatUi.ChatIndicesSound | Gen_1/chat_ui.py:169-181 | every index in the map points at a user or assistant entry |
| Gen1ChatUi.ChatIndicesComplete | Gen_1/chat_ui.py:169-181 | every user and assistant entry is in the map |
| Gen1ChatUi.ChatIndicesIncreasing | Gen_1/chat_ui.py:169-181 | the map is strictly increasing, so each entry is listed once, in conversation order |
| Gen1ChatUi.ChatWindow.RefreshChatDisplay | Gen_1/chat_ui.py:165-183 | the loop builds `ChatIndices` |
| Gen1ChatUi.ChatWindow.SendMessage | Gen_1/chat_ui.py:139-163 | blank input changes nothing; otherwise exactly one user entry with the stripped text, display rebuilt, accumulator cleared, one request |
| Gen1ChatUi.ChatWindow.StartRequest | Gen_1/chat_ui.py:150-163 | the given list is kept with its display map, the accumulator is cleared and one worker starts |
| Gen1ChatUi.ChatWindow.StreamRequest | Gen_1/chat_ui.py:185-219 | the worker emits the scan's tokens, the error note of a failure, then `done` |
| Gen1ChatUi.ChatWindow.EmitTokens | Gen_1/chat_ui.py:202-214 | the loop emits exactly the tokens of `Sse.Scan` without abort |
| Gen1ChatUi.ChatWindow.ReadLine | Gen_1/chat_ui.py:203-214 | one iteration is `Sse.LineStep` without abort: blank and non-data lines are skipped, `[DONE]` stops, and a content delta is emitted as one token signal |
| Gen1ChatUi.ChatWindow.AppendToken | Gen_1/chat_ui.py:221-222 | the token is appended to the accumulator |
| Gen1ChatUi.ChatWindow.FinishResponse | Gen_1/chat_ui.py:224-239 | from 24 entries the list is replaced by its context, then the reply is appended last; the list never exceeds 18 entries after compaction |
| Gen1ChatUi.ChatWindow.Receive | Gen_1/chat_ui.py:119-121 | one thread's signals delivered in order accumulate the token text and record it as the last entry |
| Gen1ChatUi.ErrorBecomesReply | Gen_1/chat_ui.py:216-222 | a failure's error note is part of the accumulated reply |
| Gen1ChatUi.ChatWindow.DeleteLastPrompt | Gen_1/chat_ui.py:244-250 | below two entries nothing; otherwise exactly the last two entries go, whatever their roles |
| Gen1ChatUi.DeleteUndoesExchange | Gen_1/chat_ui.py:244-250 | deleting right after an uncompacted exchange restores the conversation from before the prompt |
| Gen1ChatUi.ChatWindow.EditLastPrompt | Gen_1/chat_ui.py:252-283 | below two entries, on cancel or with blank text nothing; otherwise the last two entries become one user entry with the text as typed, and a request starts |
| Gen1ChatUi.ChatWindow.CheckEntries | Gen_1/chat_ui.py:327-329 | true exactly when every entry has `role` and `content` |
| Gen1ChatUi.ChatWindow.LoadChatManual | Gen_1/chat_ui.py:308-337 | the conversation is replaced exactly by a list of complete entries, clearing the accumulator and rebuilding the display; otherwise nothing changes |
| Gen1ChatUi.SaveLoadRoundTrip | Gen_1/chat_ui.py:285-331 | a saved conversation passes the validation and loads back unchanged |
| Gen1Main.MainWindow.KeyEnter | Gen_1/QT_Beginner.py:77-89 | as if `self.input` were bound (see Left out): Shift+Enter adds a line break; Enter clears the input and sends only a non-blank stripped text as one user message with one generation |

## Left out

- HTTP:
  - summary requests are the summariser function and streaming responses
    are body lines;
  - `switch_model`, `request_model_switch`, `get_model` and
    `wait_for_server_ready` (and the model check at the end of `load_chat`)
    are not modelled;
  - first-generation `wait_for_server` polls a probe function, and
    `time.sleep` is not modelled.
- Threads and locks: each operation is atomic and sequential. A concurrent
  abort is the line index before which it happens.
- Gen1Main.MainWindow.KeyEnter: `self.input` and `self.chat` are never
  bound in `MainWindow`, so the source's handler raises `AttributeError` at
  `Gen_1/QT_Beginner.py:78` on every key press and changes nothing; the
  model describes the handler as if `input` were the window's input box.
- Qt and HTML:
  - chat rendering, markdown, cursors, fonts, layout toggles, image panels,
    status labels and button enabling;
  - the input box's text is modelled only for the first generation's Enter
    key;
  - `Gen1Main.MainWindow.KeyEnter` appends Shift+Enter's line break at the
    end of the input rather than at the cursor.
- Timestamps:
  - `now` is a parameter;
  - `round(response_time, 2)` is not modelled (the exact difference is
    stored);
  - `format_ts` is not modelled.
- JSON:
  - chat files are typed records, and a file that is not a chat record
    reads as None;
  - non-string role/content values and extra keys of an entry are not
    modelled;
  - `load_chat_manual` entries are modelled as objects, so a string entry
    passing the `in` test by substring is not modelled;
  - saved message entries are `{role, content}` pairs.
- Paths:
  - `str(Path(...))` normalisation is not modelled;
  - paths are strings with `/` or `\` separators;
  - `mkdir` and a failing parent folder are not modelled.
- Spin box:
  - the two-decimal rounding of `QDoubleSpinBox` is not modelled, only its
    [0, 1] range;
  - the opacity slider sync is not modelled.
- `Gen_3/Widgets/botSettings.py` and `Widgets/warningWidget.py` are not
  part of this model. They are image and file-copy UI, and window loading.
- Gen1Client.LLMClient.StreamRequest: a `content` of JSON null (a
  `TypeError` on `+=`) is not modelled separately from a malformed chunk.
- Gen1ChatUi.ChatWindow.FinishResponse: the compacted list replaces
  `messages` without refreshing the display map, and the model keeps that
  stale map rather than stating a property of it.
- ChatMain.ChatMain.LoadChat: a chat record without a bot folder (`null`)
  ends the load with a `TypeError` in `load_bot`; the model stops at that
  point (`NoBotFolder`) without describing the exception further.
- ChatMain.ChatMain.LoadChat: a chat object that decodes but lacks one of
  its keys reads as None, so the model promises that the name, transcript,
  chat list and client keep their values. The source instead raises
  `KeyError` part-way through the load, after the earlier steps took
  effect:
  - a missing `Chat` (line 369) comes after the name is shown (366);
  - a missing `Bot Path`, `Model`, `Payload` or `Temperature` (383-386)
    comes after the transcript is shown and `.temp.json` is written
    (375-381);
  - a missing `Model`, `Payload` or `Temperature` also comes after
    `load_bot`;
  - a missing `Payload` or `Temperature` comes after the model is set.

  Such a file is reachable: start-up discovery accepts a chat file without
  `Payload` (`Code/main.py:14`, `Discovery.SavedChatFileMatches`). These
  partial loads are not modelled.
- ChatSettingsWindow.ChatSettings.LoadSettings: a chat object that decodes
  but lacks one of its keys reads as None, so the model promises that only
  the chat path changes. The source instead raises `KeyError` at the first
  missing key in the order of `Widgets/chatSettings.py:275-281`, after the
  earlier assignments took effect:
  - the bot path (275);
  - the name field (276);
  - the bot display (277);
  - the temperature (278);
  - the model (279);
  - the history (280).

  A file without `Payload` is reachable. `load_chat` records it as
  `LastChat` (`Code/Widgets/chatMain.py:365`), and the settings window
  then loads `LastChat` (`Code/main.py:126-129`). An empty path later
  resets neither the name field nor the bot path, so the values set
  before the error carry into the next new chat. These partial loads are
  not modelled.
