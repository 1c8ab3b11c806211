# mchat, modelled in Dafny

mchat is a terminal chat client for OpenAI-compatible servers. This project
models the client-side logic of mchat and proves properties about it:

- **Streaming and tool rounds.** The client rebuilds tool calls from
  index-tagged stream fragments. It classifies each streamed chunk and runs
  the bounded tool-round loop of `stream_completion`.
- **The tool registry.** Tool calls are dispatched to tool functions, and
  every failure becomes an `Error:` text. The JSON schema of each tool is
  parsed out of its docstring.
- **The background task registry.** Tasks are filed by function name. The
  registry supports exclusive restart, cancelling one name, cancelling
  everything, and the done callback that removes a task.
- **The conversation window.** This covers the messages a request carries
  after the last summarised index, and the summarisation of older turns.
  It also covers the single summary task and the history update after a
  turn.
- **Slash commands.** Lines are parsed and dispatched to the handlers that
  change state (`/system`, `/clear_history`, `/search`, `/edit_mode`). The
  completer offers the matching command names.
- **Persisted records.** The chat session and the prompt history are loaded
  with fallbacks when loading fails, and their save/load round trip is
  proved. Both files live under the XDG data directory.
- **Record-store helpers.** These are the helpers over a TinyDB table of
  pydantic records.

One Dafny module models each source file:

| module | file |
|---|---|
| `LlmClient` | `src/mchat/llm_client.py` |
| `Tools` | `src/mchat/tools.py` |
| `Tasks` | `src/mchat/tasks.py` |
| `Chat` | `src/mchat/chat.py` |
| `Commands` | `src/mchat/commands.py` |
| `Session` | `src/mchat/session.py` |
| `History` | `src/mchat/history.py` |
| `Db` | `src/mchat/utils/db.py` |

Four small modules support them:

- `Wrappers` holds `Option` and `Outcome`. An `Outcome` is a value returned or
  an exception raised.
- `Text` holds the Python string operations the code uses.
- `Messages` holds the chat message records.
- `DataPaths` holds the `$XDG_DATA_HOME` rule.

Some things the program reaches outside itself for are parameters:

- **The transport.** It is a finite script of responses. Each response is
  a sequence of chunks, optionally ending in an exception.
- **Tool functions and `json.loads`.** Each is an opaque function that
  returns a value or raises.
- **Stored files.** Each is an optional parsed document.
- **The environment and home directory.** Each is a plain value.

Python's `None` for texts that the code only tests for truthiness is
modelled as the empty string.

Where the program disagrees with itself, the model takes its evident
intent. Here is what the code as written does in each case:

- **The summary window limit.** `Chat._summarize` reads
  `self._config.history_limit` outside any `try`. The pydantic `Config`
  class defines no such field, so as written every summary task raises
  `AttributeError`, which the next `_create_summary_task` reports as
  `Conversation summary failed`. The model
  makes the limit a parameter, where `-1` means no limit.
- **The turn's final content.** `_chat_completion_stream` unpacks pairs
  from `stream_completion`, which yields single `StreamEvent` dataclass
  values. As written, the first event raises `TypeError`, the turn prints
  that error, and its content stays empty, so only the user message is
  recorded. The model takes the turn's final content as a parameter and
  models only its effect on the history.
- **The `search` attribute.** `search_command` reads
  `_chat_session.search`, which the plain `ChatSession` class never
  defines. As written, the first `/search` raises `AttributeError`, and
  `execute` reports it as `Command search failed: 'ChatSession' object has
  no attribute 'search'` while still returning True. The model gives the
  session a `search` flag that starts off, and `/search` toggles it.

## Model

| member | source | states |
|---|---|---|
| `LlmClient.MergeToolCalls` | src/mchat/llm_client.py:122-143 | the merging loop over the fragments returns exactly `MergedCalls`, the complete slots of the padded slot list |
| `LlmClient.MergeOne` | src/mchat/llm_client.py:125-141 | one fragment read: the list is padded to the fragment's index and every slot equals its value after that one more fragment |
| `LlmClient.Slots` | src/mchat/llm_client.py:124-141 | one slot per index up to the largest index seen, slot `j` being what the fragments of index `j` build |
| `LlmClient.Complete` | src/mchat/llm_client.py:143 | only slots with a non-empty id survive, and never more calls than slots |
| `LlmClient.FilledIndices` | src/mchat/llm_client.py:143 | the listed indices are slots with an id, strictly ascending |
| `LlmClient.FilledIndicesComplete` | src/mchat/llm_client.py:143 | every slot with an id is listed |
| `LlmClient.CompleteIsFilledSlots` | src/mchat/llm_client.py:143 | the merged output is the slots with an id, in ascending index order; padding slots are dropped |
| `LlmClient.MergedCallsBySlot` | src/mchat/llm_client.py:124-143 | merged call `k` is the slot of the `k`-th filled index and has type `function` |
| `LlmClient.SlotBeyondWidth` | src/mchat/llm_client.py:126-133 | an index beyond every fragment's index is an untouched placeholder |
| `LlmClient.SlotStep` | src/mchat/llm_client.py:134-141 | one more fragment changes only its own slot: a non-empty id replaces the id, name and arguments are appended |
| `LlmClient.LastIdIsLastFragmentId` | src/mchat/llm_client.py:135-136 | a slot's id is the id of the last fragment of that index with a non-empty id, and empty only when no such fragment exists |
| `LlmClient.SlotOfAppend` | src/mchat/llm_client.py:137-141 | over concatenated fragment lists, a slot's name and arguments concatenate in order and the later id wins |
| `LlmClient.OtherIndicesIrrelevant` | src/mchat/llm_client.py:124-141 | fragments of other indices leave a slot a placeholder |
| `LlmClient.MergeExample` | src/mchat/llm_client.py:122-143 | example: three fragments of index 0 merge into one call, whether the id comes first or last |
| `LlmClient.SlotZeroOfThree` | src/mchat/llm_client.py:124-143 | three fragments of one index give one call whose id is the last non-empty id and whose name and arguments are the concatenations |
| `LlmClient.CompleteOfIdless` | src/mchat/llm_client.py:143 | slots without ids yield no call |
| `LlmClient.NoIdNoCall` | src/mchat/llm_client.py:135-143 | when no fragment carries an id, no call is produced |
| `LlmClient.StopMessage` | src/mchat/llm_client.py:66-77 | the error text of a `length` or `content_filter` finish starts `Generation stopped (` |
| `LlmClient.StopMessageDetail` | src/mchat/llm_client.py:66-77 | the text is the reason in parentheses, then `: refusal` when there is a refusal, else `: results` when content-filter results are present, else nothing |
| `LlmClient.ConsumeStream` | src/mchat/llm_client.py:51-89 | the chunk loop yields the events, gathers the fragments and ends as `ReadStream` says |
| `LlmClient.ReadStreamIgnoresRest` | src/mchat/llm_client.py:53-78 | after a chunk without choices or with a `stop`, `length` or `content_filter` finish, no later chunk or exception changes the outcome |
| `LlmClient.StreamEventShape` | src/mchat/llm_client.py:59-89 | a response yields only `thinking` and `content` events, except that a halting finish adds exactly one `error` event, the last; fragments are never emitted |
| `LlmClient.ThinkingBeforeContent` | src/mchat/llm_client.py:80-86 | a chunk's `thinking` event appears iff the reasoning text is non-empty, its `content` event iff the content is non-empty, thinking first |
| `LlmClient.ToolEvents` | src/mchat/llm_client.py:101-107 | one `tool_call` event per merged call in order, then one `tool_complete` event `<n> tool(s) executed` |
| `LlmClient.AnnounceToolCalls` | src/mchat/llm_client.py:101-102 | the announcing loop yields one `tool_call` event per call, in order |
| `LlmClient.ToolRound` | src/mchat/llm_client.py:94-108 | a tool round appends the assistant message carrying the calls and then their results, and yields the tool events |
| `LlmClient.PlayRound` | src/mchat/llm_client.py:51-111 | one pass of the loop body ends the turn or goes on exactly as `RoundStep` says for the response read |
| `LlmClient.StreamCompletion` | src/mchat/llm_client.py:30-114 | the round loop's events, requests and ending are those of `Run` on the scripted responses |
| `LlmClient.RequestsExtendMessages` | src/mchat/llm_client.py:33-108 | every request sent starts with the caller's messages: the loop only appends to its copy |
| `LlmClient.RequestExtendsMessages` | src/mchat/llm_client.py:94-108 | request `i` starts with the messages the loop was given, whatever the responses |
| `LlmClient.ToolRoundsBounded` | src/mchat/llm_client.py:34-109 | at most `max_tool_rounds - rounds` tool rounds run |
| `LlmClient.RoundStepCounts` | src/mchat/llm_client.py:91-109 | a round yields one `tool_complete` event exactly when it ran tools, and only then does `rounds` grow, by one |
| `LlmClient.IdlessRoundsResend` | src/mchat/llm_client.py:91-111 | while fragments arrive without an id, the same messages are resent, `rounds` never grows, and only the script's end stops the loop |
| `LlmClient.RoundLimitReached` | src/mchat/llm_client.py:37-109 | a model that always asks for tools gets exactly `max_tool_rounds - rounds` requests, then the last event is `Maximum tool rounds reached (N)` |
| `LlmClient.FinalRound` | src/mchat/llm_client.py:59-114 | a response that stops, halts or raises ends the turn after its one request with no tool event; an exception adds exactly one final `error` event with its message |
| `Tools.Lookup` | src/mchat/tools.py:217-224 | a name is found iff some registry entry has it, and the tool found is registered under it |
| `Tools.ExecuteSingleTool` | src/mchat/tools.py:205-241 | every call gives a `tool` message with content, tied to the call's id; nothing is raised |
| `Tools.ExecuteSingleToolOutcomes` | src/mchat/tools.py:205-241 | a wrong type, an unknown name and unparsable arguments each give their own `Error:` text and run no tool; a tool's result is the content, a `JSONDecodeError` it raises gives `Error: Invalid JSON arguments - <message>` like unparsable arguments, and any other exception gives `Error: <message>` |
| `Tools.ExecToolCalls` | src/mchat/tools.py:198-202 | one result per call, in call order |
| `Tools.ToolResultsMatchCalls` | src/mchat/tools.py:198-202 | result `i` is a `tool` message whose `tool_call_id` is call `i`'s id |
| `Tools.ParamTypeInverse` | src/mchat/tools.py:113-122 | a missing hint gives `string`, only an unknown type gives none, and each type name maps back to its hint |
| `Tools.FindParam` | src/mchat/tools.py:149 | a parameter is found iff the signature has one of that name |
| `Tools.DocLinesStripped` | src/mchat/tools.py:132 | the docstring lines are non-empty, stripped and free of line breaks |
| `Tools.FirstArgsLineSpec` | src/mchat/tools.py:141-142 | the position found is the first `Args:` line, and one exists iff it is within the lines |
| `Tools.FirstReturnsLineSpec` | src/mchat/tools.py:143-144 | the position found is the first `Returns:` line, or the end |
| `Tools.Entries` | src/mchat/tools.py:145 | entry lines contain a colon, are not `Args:` lines, and come from the lines given |
| `Tools.Put` | src/mchat/tools.py:151-154 | dict assignment keeps existing keys in place, adds a new key at most once, and stores the pair |
| `Tools.PutKeySet` | src/mchat/tools.py:151-154 | the keys after an assignment are the old keys plus the assigned one |
| `Tools.PutKeepsKeysDistinct` | src/mchat/tools.py:151-154 | assignment keeps the dictionary's keys distinct |
| `Tools.ScanMeaning` | src/mchat/tools.py:139-157 | the single pass with the `in_args` flag computes the properties and required names of the entry lines after `Args:` |
| `Tools.SchemaFromLines` | src/mchat/tools.py:134-170 | the schema loop over the docstring lines builds `SchemaOfLines` |
| `Tools.ToolSchema` | src/mchat/tools.py:128-170 | one tool's schema is `SchemaOf` the tool |
| `Tools.GetToolSchemas` | src/mchat/tools.py:125-172 | one schema per registered tool, in registry order |
| `Tools.SchemasInOrder` | src/mchat/tools.py:125-172 | the advertised list has exactly one schema per registered tool, the i-th being the i-th tool's schema |
| `Tools.SchemaDescription` | src/mchat/tools.py:131-134 | the schema is named after the function, and its description is the first non-blank stripped docstring line, or the name when there is none |
| `Tools.PropertiesAreParams` | src/mchat/tools.py:145-157 | properties name only real parameters, each once, and `required` lists exactly the documented parameters without defaults: each of its names is one, and every such property is in it |
| `Tools.SchemaOfNamesParams` | src/mchat/tools.py:145-157 | every advertised schema satisfies that consistency, so its `required` is exactly its documented parameters without defaults |
| `Tools.NoArgsLineNoParameters` | src/mchat/tools.py:139-145 | without an `Args:` line before `Returns:` no parameter is advertised |
| `Tools.ReturnsEndsDocstring` | src/mchat/tools.py:143-144 | nothing after the first `Returns:` line affects the schema |
| `Tasks.BodyOf` | src/mchat/tasks.py:18-23 | a task repeats iff the interval is given and non-zero, with that interval |
| `Tasks.CancelEach` | src/mchat/tasks.py:27-36 | cancelling a set of tasks requests cancellation of those and leaves every other task as it was |
| `Tasks.CancelEachUnion` | src/mchat/tasks.py:27-36 | cancelling two sets in turn is cancelling their union |
| `Tasks.CancelEachIdempotent` | src/mchat/tasks.py:27-36 | cancelling the same tasks twice is cancelling them once |
| `Tasks.IdsUnderStep` | src/mchat/tasks.py:28-30 | the tasks under a set of names grow by a name's set as the name is added |
| `Tasks.IntervalTraceShape` | src/mchat/tasks.py:44-47 | the interval loop alternates calling the function with its arguments and sleeping the interval |
| `Tasks.SetInterval` | src/mchat/tasks.py:44-47 | the loop's first rounds are that trace |
| `Tasks.FiledRegistered` | src/mchat/tasks.py:13-25 | every id registered under a name is a task created for a function of that name |
| `Tasks.FiledAfterCancel` | src/mchat/tasks.py:27-36 | cancelling keeps the registry consistent with the tasks |
| `Tasks.TaskManager.constructor` | src/mchat/tasks.py:7-8 | the registry starts empty |
| `Tasks.TaskManager.CreateTask` | src/mchat/tasks.py:10-25 | an exclusive restart of a registered name cancels its tasks and leaves just the new one; otherwise the new task is added beside the others; the key is the function's name |
| `Tasks.TaskManager.CancelAll` | src/mchat/tasks.py:27-31 | every registered task is cancelled and no key remains; on an empty registry nothing changes |
| `Tasks.TaskManager.Cancel` | src/mchat/tasks.py:33-36 | only that name's tasks are cancelled, and the name is left mapped to an empty set |
| `Tasks.TaskManager.RemoveTask` | src/mchat/tasks.py:38-41 | the done callback removes the task from its name's set; it raises iff the set is non-empty and lacks the task |
| `Tasks.TaskManager.Finish` | src/mchat/tasks.py:24-41 | a task that is not yet done becomes done, once; its callback removes its id from the set under its name, and raises `KeyError` exactly when that set is non-empty and lacks the id |
| `Tasks.ExclusiveRestartStrandsCallback` | src/mchat/tasks.py:13-41 | after an exclusive restart, the cancelled task's callback raises `KeyError` |
| `Chat.Clip` | src/mchat/chat.py:110-112 | a slice bound counts from the front, or from the back when negative; a bound past the end gives the length, one before the start gives 0 |
| `Chat.PySliceFrom` | src/mchat/chat.py:71 | `history[start:]` is the suffix from `start`, or empty past the end |
| `Chat.BuildMessages` | src/mchat/chat.py:62-73 | a request is the optional system message, then the history after the last summarised index, then the user's prompt |
| `Chat.SystemMessagePresence` | src/mchat/chat.py:64-70 | the system message is present iff the prompt or the summary is non-empty; its text starts with the prompt and ends with the summary |
| `Chat.BuildMessagesEmptyHistory` | src/mchat/chat.py:62-73 | example: with a system prompt and an empty history a request has two messages |
| `Chat.BuildMessagesCarriesUnsummarized` | src/mchat/chat.py:71 | the messages between the system message and the prompt are `history[idx+1:]` |
| `Chat.HistoryWithinIndexIsSkipped` | src/mchat/chat.py:71 | a history no longer than the index contributes nothing to the request |
| `Chat.SummaryWindowBounds` | src/mchat/chat.py:107-113 | the window is `history[idx+1:]` for limit -1, `history[idx+1:-limit]` otherwise, and empty when the limit covers the rest |
| `Chat.ZeroLimitNeverSummarizes` | src/mchat/chat.py:112 | a limit of 0 makes the window `history[start:0]`, always empty, so nothing is ever summarised |
| `Chat.SummaryWindowPartition` | src/mchat/chat.py:107-113 | the window followed by what stays unsummarised is exactly what was unsummarised before: no message is lost or repeated |
| `Chat.SummaryKeepsRecent` | src/mchat/chat.py:107-140 | after a successful summary exactly `limit` messages stay unsummarised with a positive limit, and none with no limit |
| `Chat.SummaryExample` | src/mchat/chat.py:107-140 | example: six messages with limit 4 summarise the first two and move the index to 1 |
| `Chat.TranscriptLines` | src/mchat/chat.py:116-118 | one `role:content` line per message, in order |
| `Chat.SummaryPromptCarriesWindow` | src/mchat/chat.py:116-134 | the summary prompt embeds the previous summary and the line of every summarised message |
| `Chat.Chat.constructor` | src/mchat/chat.py:30-32 | a chat starts with no summary task and index -1 |
| `Chat.Chat.Summarize` | src/mchat/chat.py:106-144 | an empty window sends nothing and changes nothing; otherwise the prompt is sent, and a successful answer becomes the summary as the index moves past the window, while a failure changes neither; the history, the prompt and the search flag stay as they were |
| `Chat.Chat.CreateSummaryTask` | src/mchat/chat.py:146-153 | a running task is never replaced; a finished one is dropped, with a warning when it failed, and a new one started |
| `Chat.Chat.RecordTurn` | src/mchat/chat.py:102-104 | the user message is always appended, the assistant's only when its content is non-empty; the prompt, the summary and the search flag stay as they were |
| `Commands.CommandNames` | src/mchat/commands.py:133-145 | the registered names, in registry order |
| `Commands.SplitWhitespaceEmpty` | src/mchat/commands.py:157-158 | `split()` gives no token iff the text is all whitespace |
| `Commands.ParseNotCommand` | src/mchat/commands.py:154-155 | a line is no command iff it does not start with `/` |
| `Commands.ParseBlank` | src/mchat/commands.py:157-158 | `execute` reaches the failing `parts[0]` exactly for `/` followed by whitespace only |
| `Commands.ParseTokens` | src/mchat/commands.py:157-161 | the name is the first token and the arguments the remaining tokens; known iff registered |
| `Commands.ParseJoined` | src/mchat/commands.py:157-161 | a line built from a registered name and space-free arguments parses back to them |
| `Commands.SystemPromptRoundTrip` | src/mchat/commands.py:86-89 | the prompt set by `/system` splits back into its arguments unless they are a single quoted empty string |
| `Commands.SystemCommandFromLine` | src/mchat/commands.py:80-89 | a typed `/system` line with several arguments sets a prompt that splits back into them |
| `Commands.EditModeOnlyOnKnownName` | src/mchat/commands.py:117-130 | the mode changes only for a first argument `vi` or `emacs` in any case, to the mode named, and otherwise stays |
| `Commands.EditModeIgnoresCase` | src/mchat/commands.py:125-128 | example: `VI` and `Emacs` select their modes |
| `Commands.ApplyOnlyKnown` | src/mchat/commands.py:153-170 | only a known command changes state, and `/search` twice restores the flag |
| `Commands.ExecuteResultMeaning` | src/mchat/commands.py:153-170 | `execute` returns False iff the line does not start with `/`, and raises iff the command part is blank |
| `Commands.CommandProcessor.SystemCommand` | src/mchat/commands.py:80-89 | no args shows the prompt, a single `''` or `""` clears it, otherwise the args joined by spaces become the prompt |
| `Commands.CommandProcessor.ClearHistoryCommand` | src/mchat/commands.py:92-95 | clears the session when there is one |
| `Commands.CommandProcessor.SearchCommand` | src/mchat/commands.py:106-114 | flips the search flag and reports its new state |
| `Commands.CommandProcessor.EditModeCommand` | src/mchat/commands.py:117-130 | sets the editing mode as `EditModeAfter` says |
| `Commands.CommandProcessor.Execute` | src/mchat/commands.py:153-170 | returns `ExecuteResult` of the parsed line, runs only a known command's handler, reports an unknown name, and turns a handler exception into a report while still returning True |
| `Commands.CommandProcessor.Dispatch` | src/mchat/commands.py:161-167 | runs the handler registered under the name, changing only what that command changes; a handler failure becomes the report `Command <name> failed: <error>` |
| `Commands.MatchingMeaning` | src/mchat/commands.py:182-184 | a completion is offered iff its name is registered and starts with the typed word, and it replaces the whole word |
| `Commands.MatchingAppend` | src/mchat/commands.py:182-184 | completions follow registry order |
| `Commands.GetCompletions` | src/mchat/commands.py:177-184 | the completer's loop yields `Completions`: matches only for a `/` word without a space |
| `Session.SaveDocument` | src/mchat/session.py:56-63 | `save` writes exactly the three keys |
| `Session.LoadSession` | src/mchat/session.py:10-22 | a missing, unreadable or incomplete file gives the empty defaults |
| `Session.LoadSaveRoundTrip` | src/mchat/session.py:13-63 | what `save` writes loads back to the same prompt, history and summary |
| `Session.ChatSession.constructor` | src/mchat/session.py:10-22 | the session holds the loaded fields |
| `Session.ChatSession.SetSystemPrompt` | src/mchat/session.py:40-42 | changes the prompt only |
| `Session.ChatSession.SetSummary` | src/mchat/session.py:48-50 | changes the summary only |
| `Session.ChatSession.AddToHistory` | src/mchat/session.py:66-67 | appends exactly the message and changes nothing else |
| `Session.ChatSession.Clear` | src/mchat/session.py:69-72 | empties the prompt, the summary and the history |
| `DataPaths.DataFile` | src/mchat/session.py:24-30 | the file is `$XDG_DATA_HOME/mchat/<name>` when the variable is set, else `~/.local/share/mchat/<name>` |
| `DataPaths.DataFileReadsOnlyXdg` | src/mchat/history.py:15-21 | the path depends on the environment only through `XDG_DATA_HOME` |
| `History.Dump` | src/mchat/history.py:35-39 | `save` dumps the prompt and the messages |
| `History.Load` | src/mchat/history.py:23-33 | a missing, unreadable or incomplete file gives no prompt and no messages |
| `History.LoadDumpRoundTrip` | src/mchat/history.py:26-39 | what `save` writes loads back to the same record |
| `History.InvalidFieldFallsBack` | src/mchat/history.py:28-33 | a `system_prompt` or `messages` field that fails validation gives the fallback |
| `History.HistoryManager.constructor` | src/mchat/history.py:12-13 | the manager holds the loaded record |
| `History.HistoryManager.Add` | src/mchat/history.py:41-42 | appends exactly one message |
| `History.HistoryManager.UpdateSystemPrompt` | src/mchat/history.py:44-45 | changes the prompt only |
| `History.HistoryManager.Clear` | src/mchat/history.py:47-48 | empties the messages and keeps the prompt |
| `Db.Find` | src/mchat/utils/db.py:22-24 | a document is found iff a row has that id, and it is that row's fields |
| `Db.FindAt` | src/mchat/utils/db.py:50-54 | in an id-ordered table the document found under a row's id is that row's |
| `Db.Without` | src/mchat/utils/db.py:58 | removal keeps exactly the rows with other ids |
| `Db.WithoutIncreasing` | src/mchat/utils/db.py:58 | removal keeps the table in id order |
| `Db.WithoutPresent` | src/mchat/utils/db.py:58-59 | removing a present id removes exactly one row, an absent one nothing |
| `Db.UpdatedRows` | src/mchat/utils/db.py:25 | the update changes the fields of exactly the document with that id |
| `Db.Table.Insert` | src/mchat/utils/db.py:11-14 | stores the fields without the id under a fresh id and returns the record carrying it |
| `Db.Table.Update` | src/mchat/utils/db.py:17-26 | with neither `doc_id` nor an id field, or with no such document, it raises and changes nothing; otherwise it merges the fields into exactly that document and returns the input |
| `Db.Table.SelectOne` | src/mchat/utils/db.py:29-47 | without an id: None on an empty table, an error for several rows, else the single row; with an id: None when absent, else that document with `id = doc_id` |
| `Db.Table.SelectAll` | src/mchat/utils/db.py:50-54 | one record per document in table order, each carrying its own id |
| `Db.Table.DeleteOne` | src/mchat/utils/db.py:57-59 | removes the document and returns True iff exactly one was removed |

## Left out

- The OpenAI transport, `list_models` and `completion`. They are library calls. The transport is a finite script of responses, and the summary call's answer is a parameter.
- The tool bodies (`web_search`, `extract_web_page`, `read_file`, `write_file`). They need the network and files, so each tool is an opaque function returning a text or raising.
- asyncio. The model does not cover `gather` concurrency, task scheduling, or how cancellation reaches a task. Only the registry bookkeeping is modelled, along with the order in which results come back.
- JSON and pydantic encoding and decoding. `json.loads` is an opaque partial parser. `json.dumps` of a tool call is an opaque function. `model_dump` and `model_validate` are the identity on flat documents, and a validation error in `select_one`/`select_all` is not modelled.
- TinyDB's own storage, and `flush` and `close`. The table is an id-ordered list of rows with a last-used id.
- The rendering in `Chat.start`, the prompt session, and the panels. The printing in `/help` and `/show_history` is left out too. So are `/quit`, which exits the process, and the `/models` and `/model` handlers, which call the network.
- `src/mchat/config.py`, `src/mchat/web_search.py` and `src/mchat/cli.py` are not part of this model.
- LlmClient.Run: the scripted transport can run out, which ends the model's turn with an `Exhausted` marker the program does not have. This is what makes the loop terminate, because resends without an id never increase `rounds`.
- LlmClient.MergeToolCalls: a fragment's index is a natural number. Python would also accept a negative index, which reads a slot from the end of the list, or raises `IndexError` when the list is empty; the model does not cover that case.
- LlmClient.StreamCompletion: the exception raised while creating a request or reading a stream is data of the scripted response. Exceptions from elsewhere in the loop are not modelled, because the tool dispatcher never raises.
- Tasks.SetInterval: only the first given number of rounds of the endless loop are modelled.
- Tasks.TaskManager.CreateTask: task ids are positions in a list of created tasks, not asyncio objects. Cancellation is recorded as a request.
- Chat.Chat.RecordTurn: the final content is a parameter, because `_chat_completion_stream` unpacks pairs that `stream_completion` does not yield.
- Session.LoadSession: a document whose keys hold values of the wrong type counts as a failed load. Python would keep such values.
- Commands.CommandProcessor.SearchCommand: toggles the model's `search` flag. As written the handler raises `AttributeError` on its first read, and `execute` reports that failure; the model follows the evident intent instead.
- Chat.Chat.Summarize: the history limit is a parameter. As written, reading `history_limit` from the configuration raises `AttributeError`, so every summary task fails; the model follows the evident intent instead.
- Session.ChatSession: the `search` flag is the model's; the source class has no such attribute.
- Text.IsSpace: whitespace is Python's `str.isspace` set, while `Text.Lower` folds ASCII letters only.
- Db.Table.DeleteOne: an absent id removes nothing and returns False. TinyDB's own behaviour for an absent id is not modelled.
- Db.Table.Update: TinyDB merges the dumped fields into the document. Because `model_dump` writes every field, this overwrites the whole record.
