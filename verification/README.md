# Voice-Controlled Productivity Assistant — tool-dispatch model

This project models the core of the voice-controlled productivity assistant.
The language model's reply is handed to `get_response`. That function decides
between a free-text answer and a list of tool calls. It executes each tool
call against the file store and collects one human-readable result line per
executed call. The three file helpers `create_file`, `read_file` and
`delete_file` are modelled as pure functions over an immutable store.

Abstractions:

- The file system is a `map<string, string>` from file name to content
  (`FileOps.Store`). File names are opaque keys.
- The reply of `ollama.chat` is an input value (`Dispatch.Reply`). It holds an
  optional message with two dict keys, `tool_calls` and `content`. Each key is
  `Missing`, `Null` or `Present`, mirroring `dict.get`.
- A tool call is a name and a string-to-string argument map (`Dispatch.ToolCall`).
  The recognised names form a closed enumeration (`Dispatch.Tool`).
- A result line is a `Dispatch.Line` value, one constructor per kind
  (created, read, deleted, edited, task added, free text). `Dispatch.Render`
  gives the exact text `get_response` formats for it.
- The loop is a left fold (`Dispatch.Run`). Each call runs against the store its
  predecessors left, and its line, if any, follows theirs. `Dispatch.DispatchCalls`
  is the loop written imperatively, as `get_response` writes it, and is proved equal
  to the fold.

Modules:

- `wrappers.dfy` (`Wrappers`): `Option`.
- `file_ops.dfy` (`FileOps`): the store and the three file helpers.
- `dispatch.dfy` (`Dispatch`): tool calls, one loop step, the fold, the
  free-text branch and the response.
- `dispatch_properties.dfy` (`DispatchProperties`): properties over all stores
  and call sequences.

Behaviours of the program the model keeps as they are:

- An unknown tool name is skipped silently: no line is emitted and the store
  does not change.
- The `delete_file` line always says the file was deleted, even when it was
  missing, because the helper's return value is discarded.
- `add_task` records nothing; it only emits its line. The `task_table` slot is
  always `None`.
- The placeholder `🤖 No model response.` is used only when the `message` key or
  its `content` key is missing. An empty content gives the line `💬 ` with nothing after it. A null
  content gives `💬 None`, because that is how a Python f-string renders `None`.
- `read_file` opens the file in text mode, so a `\r\n` or a lone `\r` in the
  file is read as `\n` (`FileOps.UniversalNewlines`). Writing in text mode on a
  POSIX system stores the text unchanged.

## Model

| member | source | states |
|---|---|---|
| FileOps.CreateFile | productivity_assistant.py:9-11 | afterwards the file maps to exactly the new content, whatever was there; the key set grows by at most that name; no other entry changes |
| FileOps.UniversalNewlines | productivity_assistant.py:15-16 | the text a text-mode read returns never holds a carriage return, is no longer than the stored text, and equals it when the stored text has no carriage return |
| FileOps.TwoPasses | productivity_assistant.py:15-16 | for every text, the read text is what turning each `\r\n` pair into `\n` and then each remaining `\r` into `\n` gives, so every carriage return becomes a line feed and a `\r\n` pair becomes a single one |
| FileOps.UniversalNewlinesExamples | productivity_assistant.py:15-16 | `a\r\nb` and `a\rb` both read as `a\nb`, and `a\r\r\nb` reads as `a\n\nb` |
| FileOps.ReadFile | productivity_assistant.py:13-18 | a present file yields text without carriage returns, no longer than the stored text, and exactly the stored text when that has none; a missing file yields the not-found text `❌ File not found.` instead of an error |
| FileOps.DeleteFile | productivity_assistant.py:20-24 | the name is gone and every other entry is kept; a missing name leaves the store unchanged; the helper returns the not-found text exactly when the file was missing, and nothing otherwise |
| FileOps.CreateThenRead | productivity_assistant.py:9-16 | reading after a create returns the content just written with its newlines translated, and exactly that content when it has no carriage return |
| FileOps.CarriageReturnIsNotKept | productivity_assistant.py:9-16 | writing `a\r\nb` and reading it back gives `a\nb`, so the round trip is not exact for such text |
| FileOps.CreateOverwrites | productivity_assistant.py:9-11 | two creates of one name leave only the second content (full overwrite, no merge) |
| FileOps.DeleteThenRead | productivity_assistant.py:13-24 | reading after a delete yields the not-found text |
| FileOps.CreateThenDelete | productivity_assistant.py:9-24 | deleting a freshly created new file restores the old store, and the helper returns nothing |
| FileOps.NotFoundIsAmbiguous | productivity_assistant.py:13-18 | a missing file and a file holding the not-found text read the same, although the stores differ |
| Dispatch.ToolNames | productivity_assistant.py:41-57 | each of the five names `create_file`, `read_file`, `delete_file`, `edit_file`, `add_task` selects its own tool, in both directions; any other name selects none |
| Dispatch.Step | productivity_assistant.py:40-57 | one call emits a line exactly when its name is recognised; create and edit write the file, delete removes it, read and add_task leave the store, unknown names leave it too |
| Dispatch.Known | productivity_assistant.py:44-57 | the filtered calls are recognised calls of the input, every recognised call of the input is among them, and there are no more of them than input calls |
| Dispatch.KnownKeepsCounts | productivity_assistant.py:44-57 | filtering keeps each recognised call exactly as often as it occurs in the input and drops every other call |
| DispatchProperties.KnownAppend | productivity_assistant.py:40-57 | filtering a concatenation is the concatenation of the filtered parts, so the relative order of the calls is kept |
| Dispatch.Run | productivity_assistant.py:39-57 | the loop emits exactly one line per recognised call; a batch without recognised calls leaves the store unchanged |
| Dispatch.CallsOf | productivity_assistant.py:34-39 | the calls taken from the reply are non-empty exactly when the reply has tool calls, and then they are the reply's own list |
| Dispatch.ToolCallsTruthiness | productivity_assistant.py:34-39 | no message, a missing, a null or an empty `tool_calls` all select the free-text branch; a non-empty list selects the loop over exactly that list |
| Dispatch.RawText | productivity_assistant.py:34-35 | the text is the placeholder exactly when the message or its content key is missing or the content is the placeholder text; it is `None` exactly when the content is null or the text `None`; a present content passes through unchanged |
| Dispatch.RunSaysNothing | productivity_assistant.py:40-57 | no line the loop emits is a free-text line |
| Dispatch.Respond | productivity_assistant.py:34-61 | the task table is always `None`; with tool calls there is one result per recognised call and none of them starts with the speech mark 💬; without, there is exactly one result, `💬 ` followed by the text, and the store is unchanged |
| Dispatch.DispatchCalls | productivity_assistant.py:40-57 | the imperative loop, which updates the store in place and appends each line's text to the result list, computes exactly the texts and the store of the fold |
| Dispatch.GetResponse | productivity_assistant.py:34-61 | `get_response`'s branch between the loop and the free-text line computes exactly the response described by `Respond` |
| DispatchProperties.EditIsCreate | productivity_assistant.py:44-55 | an `edit_file` call has the same effect on the store as a `create_file` call with the same arguments; the lines are the edited and the created line for that name, and their texts differ |
| DispatchProperties.DeleteLineIgnoresSentinel | productivity_assistant.py:50-52 | the delete line is always the deleted line (`🗑️ File … deleted.`), even when the helper returned the not-found text for a missing file, in which case the store is unchanged |
| DispatchProperties.AddTaskOnlyReports | productivity_assistant.py:56-57 | `add_task` leaves the store unchanged and emits only the task-added line (`📝 Task added: ` plus the description) |
| DispatchProperties.ReadLineShowsContent | productivity_assistant.py:47-49 | a read line shows the file content as a text-mode read returns it, or the not-found text for a missing file, and the store is unchanged |
| DispatchProperties.UnknownCallIsDropped | productivity_assistant.py:44-57 | a call with any other name emits no line and does not touch the store |
| DispatchProperties.RunAppend | productivity_assistant.py:40-57 | running two batches back to back equals running their concatenation: the first batch's lines come first, and the second batch sees the store the first one left |
| DispatchProperties.RunIgnoresUnknown | productivity_assistant.py:40-57 | removing every unrecognised call beforehand changes neither the lines nor the final store |
| DispatchProperties.OneLinePerCall | productivity_assistant.py:39-57 | when every name is recognised there are exactly as many lines as calls |
| DispatchProperties.RunLineOrder | productivity_assistant.py:40-57 | the i-th line is the line of the i-th recognised call, run against the store the recognised calls before it left |
| DispatchProperties.ResultsInCallOrder | productivity_assistant.py:39-61 | the response has one text per recognised call, the i-th text is the rendering of the i-th recognised call's line, and the final store is that of running only the recognised calls |
| DispatchProperties.RenderKeepsKind | productivity_assistant.py:44-59 | lines of different kinds never render to the same text: the leading emoji tells the kinds apart |
| DispatchProperties.RunFrame | productivity_assistant.py:40-57 | a file that no create, edit or delete call of the batch names is left exactly as it was |
| DispatchProperties.ToolCallsOverrideText | productivity_assistant.py:39-59 | with a non-empty tool-call list the content, whatever it is, has no influence on the response |
| DispatchProperties.PlaceholderOnlyForMissingContent | productivity_assistant.py:35-59 | without tool calls there is exactly one line, and it is the placeholder line exactly when the content key or the message is missing, or the content is the placeholder text itself |
| DispatchProperties.NotesCreateReadScenario | productivity_assistant.py:40-57 | creating `notes.txt` with `hello` and reading it gives the created line and a read line showing `hello`, and the store holds just that file |
| DispatchProperties.NotesDeleteReadScenario | productivity_assistant.py:40-57 | deleting `notes.txt` and reading it again gives the deleted line and a read line showing the not-found text, and the store ends empty |
| DispatchProperties.TaskThenCreateScenario | productivity_assistant.py:40-57 | a task call then a create call give the task line, then the created line, and only `a.txt` is written |

## Left out

- The call to `ollama.chat` (productivity_assistant.py:28-32) is a network call into a foreign library. Its reply is an input value. A failure of that call is not modelled.
- The tool catalog `TOOLS` lives in `tools.py`, which is not part of this model; its parameter schemas are not modelled.
- Whisper transcription and `transcribe_and_respond` (productivity_assistant.py:63-71) are a machine-learning pipeline and UI glue. That function joins the result lines with a newline; the join is not modelled.
- The Gradio interface and `demo.launch()` (productivity_assistant.py:73-120) are presentation only.
- Real file-system semantics are not modelled: paths, directories, permissions, encodings. Only the `FileNotFoundError` that `read_file` and `delete_file` catch is modelled. Every other failure propagates out of `get_response` and aborts the batch, and is not modelled: `PermissionError` or `IsADirectoryError` in any helper, and any error of `create_file`, which catches nothing.
- FileOps.CreateFile: always succeeds. In `create_file`, `open(filename, 'w')` raises `FileNotFoundError` for an empty name or a name in a missing directory, which is not caught and aborts the batch.
- Newline translation is modelled for POSIX only. On Windows a text-mode write would also turn `\n` into `\r\n`.
- A call missing an argument key (`filename`, `content` or `task_description`), or missing its `function` entry, raises `KeyError` in `get_response`. The model makes well-formed arguments a precondition (`Dispatch.WellFormed`) instead of an error path. The writes of the calls before such a failure would persist, and this is not modelled either.
- A `message` key that is present but null makes `get_response` raise `AttributeError`; the model has no such reply.
- Argument values are strings. A non-string value is not modelled. The result lines would format it with `str()`, but `f.write` raises `TypeError` for non-string content, and `open` takes an integer file name as a file descriptor.
- DispatchProperties.ToolCallsOverrideText: states that the content has no influence on the response when tool calls are present, rather than that the content text never occurs in the results, because a file read by one of the calls may contain that same text.
