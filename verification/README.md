# Dify agent file routing, token extraction and workflow log store — a Dafny model

This project models, in Dafny, four parts of Dify's API server and proves what each promises.

- **Agent file routing.** `FileDispatcherTool` indexes the files of a conversation by name. It routes one of them either back to the agent (`target = "self"`) or into a shared two-level map `{tool: {parameter: file}}`. `AgentBuiltinToolsManager` builds the dispatcher. The prompt builders describe the files and the file parameters of the tools. The ReAct loop later reads the shared map and fills tool arguments from it. Arguments given explicitly always win.
- **The agent loop.** This covers the iteration cap, the stop words, and the rendering of the scratchpad into the prompt. It also covers the "replace the last user message or append one" step that attaches files, the field-wise accumulation of token usage, and the ReAct round loop with its termination structure. The language model and the tool engine are given as oracles.
- **Access-token extraction.** This covers the `Authorization: Bearer` header parser, with a case-insensitive scheme as in section 2.1 of RFC 7235 and the token of section 2.1 of RFC 6750. It also covers the cookie, header and query precedence of the access-token and web-app passport extractors, the CSRF check with its expiry, and the passport cookies written to and cleared from a response.
- **The workflow log store.** This covers the adapter between workflow executions and workflow-run rows, with its total, invertible status tables. It covers the Elasticsearch repositories for workflow runs, app logs, node executions and executions: monthly index names, document serialisers that drop `None`, readers that invert them, query bodies built from optional filters, the `limit + 1` / `has_more` pagination, retention by month label, and the node-execution cache with its partial updates. It also covers the migration service's offset and batch loops with their per-record counters, the validation comparisons, and the dry-run and ordering of the PostgreSQL cleanup.

Each source file is one module. Pure code becomes datatypes, functions and lemmas. Code that updates state becomes classes and methods with loops. Each method is proved against a specification function.

- `Common` holds `Option`/`Result`, Python's string helpers and the `YYYY.MM` month label.
- `WorkflowRecords` holds the JSON-like values and the record entities.
- `EsClient` holds the store client. It is a request log plus an oracle for the store's replies, and it also holds the helpers the repositories share.

## Model

| member | source | states |
|---|---|---|
| Common.SkipSpaces | api/libs/token.py:35 | the scan stops at the first non-whitespace position at or after the start, passing only whitespace |
| Common.SkipWord | api/libs/token.py:35 | the scan stops at the first whitespace position at or after the start, passing only non-whitespace |
| Common.TrimStart | api/core/agent/tools/file_dispatcher.py:157-158 | the result is empty exactly when the string is all whitespace, and otherwise does not start with whitespace |
| Common.TrimEnd | api/core/agent/tools/file_dispatcher.py:157-158 | the result is a prefix of the string; it is empty exactly when the string is all whitespace, and otherwise does not end with whitespace |
| Common.Strip | api/core/agent/tools/file_dispatcher.py:157-158 | `strip()` is empty exactly for an all-whitespace string, and otherwise has no whitespace at either end |
| Common.TrimStartSkips | api/core/agent/tools/file_dispatcher.py:157 | removing leading whitespace removes exactly the whitespace prefix |
| Common.StripNoop | api/core/agent/tools/file_dispatcher.py:157-158 | a string without whitespace at either end is its own strip |
| Common.StripIdempotent | api/core/agent/tools/file_dispatcher.py:157-158 | stripping twice is stripping once |
| Common.SplitOnce | api/libs/token.py:35 | `split(None, 1)` gives at most two non-empty pieces, the first without whitespace, and none exactly for an all-whitespace string |
| Common.Join | api/core/agent/patterns/react.py:215-232 | joining nothing gives "", and joining one part gives that part |
| Common.Contains | api/core/agent/patterns/react.py:327 | `p in s` on strings holds exactly when the pattern occurs in the string at some position |
| Common.LastSegment | api/repositories/elasticsearch_api_workflow_run_repository.py:471 | `split('-')[-1]` is a separator-free suffix of the name, preceded by the separator when shorter than the name |
| Common.LastSegmentOfSuffix | api/repositories/elasticsearch_api_workflow_run_repository.py:471 | the last segment of "<head>-<tail>" is the tail when the tail has no separator |
| Common.Suffix | api/core/agent/patterns/react.py:235-237 | the suffix from a position holds the string's characters from there on |
| Common.ReplaceFromAbsent | api/core/agent/patterns/react.py:235-237 | a replacement scan that meets no occurrence copies the rest unchanged |
| Common.ReplaceAbsent | api/core/agent/patterns/react.py:235-237 | `replace` of a placeholder that does not occur leaves the string unchanged |
| Common.Decimal | api/core/agent/tools/prompt.py:29 | `str(n)` is a non-empty string of digits without a leading zero |
| Common.DecimalRoundTrip | api/core/agent/tools/prompt.py:29 | reading `str(n)` back gives n |
| Common.GroupDigits | api/core/agent/tools/prompt.py:29 | three digits or fewer are left ungrouped |
| Common.RemoveCommasAppend | api/core/agent/tools/prompt.py:29 | removing separators distributes over concatenation |
| Common.RemoveCommasNoop | api/core/agent/tools/prompt.py:29 | a string without commas keeps all its characters |
| Common.GroupDigitsRemoveCommas | api/core/agent/tools/prompt.py:29 | grouping only inserts separators |
| Common.GroupedIntDenotes | api/core/agent/tools/prompt.py:29 | `f"{n:,}"` denotes n: without its separators it is `str(n)` |
| Common.Pow10 | api/repositories/elasticsearch_api_workflow_run_repository.py:80 | a power of ten is positive |
| Common.PadDigits | api/repositories/elasticsearch_api_workflow_run_repository.py:80 | a zero-padded number has exactly the given width and only digits |
| Common.LexLessConcat | api/repositories/elasticsearch_api_workflow_run_repository.py:472 | string order on concatenations with equal-length heads compares the heads, then the tails |
| Common.PadDigitsOrder | api/repositories/elasticsearch_api_workflow_run_repository.py:472 | on equal-width zero-padded numbers in range, string order is numeric order and string equality is numeric equality |
| Common.YearMonth | api/repositories/elasticsearch_api_workflow_run_repository.py:80 | "YYYY.MM" is seven characters with a dot at position 4 and no '-' |
| Common.YearMonthOrder | api/repositories/elasticsearch_api_workflow_run_repository.py:461-472 | month labels compare as strings exactly as the months compare in time, so the retention comparison is chronological |
| FileDispatcher.FileIndex | api/core/agent/tools/file_dispatcher.py:39 | the index holds exactly the names some file carries, and each name maps to a file of that name |
| FileDispatcher.FileIndexLastWins | api/core/agent/tools/file_dispatcher.py:39 | with duplicate names, the last file of a name is the one indexed |
| FileDispatcher.OptionFor | api/core/agent/tools/file_dispatcher.py:83-88 | an option's value is the filename, or "" exactly when the file has no (or an empty) name; its label starts with the name and " (" |
| FileDispatcher.Options | api/core/agent/tools/file_dispatcher.py:82-90 | one option per file, in file order |
| FileDispatcher.OptionValuesAreIndexed | api/core/agent/tools/file_dispatcher.py:39-90 | a non-empty id is offered as an option exactly when the dispatcher's index knows it |
| FileDispatcher.Put | api/core/agent/tools/file_dispatcher.py:174-176 | the written cell holds the file, the inner dictionary is created when absent, and every other tool and parameter entry is unchanged |
| FileDispatcher.PutLastWins | api/core/agent/tools/file_dispatcher.py:176 | writing a cell twice keeps the later file |
| FileDispatcher.ToolFileMap.constructor | api/core/agent/tools/file_dispatcher.py:40 | a new shared map is empty |
| FileDispatcher.ToolName | api/core/agent/tools/file_dispatcher.py:157-162 | the tool name is the stripped target with one leading "functions." removed, and the stripped target otherwise |
| FileDispatcher.DispatchWritesIff | api/core/agent/tools/file_dispatcher.py:131-183 | a dispatch writes the map if and only if the file id is given and known, the target is given and is not "self", and the cleaned tool and parameter names are non-empty; it then writes the indexed file under those names ("file" when no parameter name is given), and its last message is the FILE message naming that cell |
| FileDispatcher.DispatchMessages | api/core/agent/tools/file_dispatcher.py:135-183 | a dispatch emits one message, or two when a "functions." prefix was removed, with the note first; without a write it ends with an error text or is the single self FILE message |
| FileDispatcher.DispatchValidationOrder | api/core/agent/tools/file_dispatcher.py:135-146 | missing file id, then unknown id, then missing target: each stops with exactly one text message and no write |
| FileDispatcher.PaddedSelfIsATool | api/core/agent/tools/file_dispatcher.py:148-157 | only the exact target "self" goes to the model; " self " is stripped and stored as tool "self" |
| FileDispatcher.StripPaddedSelf | api/core/agent/tools/file_dispatcher.py:157 | stripping " self " gives "self" |
| FileDispatcher.FileDispatcherTool.constructor | api/core/agent/tools/file_dispatcher.py:38-40 | the tool keeps its files and indexes them; a given non-empty map is shared (aliased), while none or an empty one gives a fresh empty map |
| FileDispatcher.FileDispatcherTool.OptionList | api/core/agent/tools/file_dispatcher.py:82-90 | the tool's option list has one option per file, in order |
| FileDispatcher.FileDispatcherTool.Invoke | api/core/agent/tools/file_dispatcher.py:122-183 | `_invoke` emits the messages of `Dispatch` and changes the shared map by at most that one write |
| FileDispatcher.FileDispatcherTool.DispatchToTool | api/core/agent/tools/file_dispatcher.py:155-183 | the tool branch emits the messages of `RouteToTool` and applies its one write to the shared map |
| ToolsManager.CreateFileDispatcher | api/core/agent/tools/manager.py:32-43 | no dispatcher exactly when there are no files or construction raises; otherwise a fresh dispatcher over exactly those files, sharing the given map under the dispatcher's `or {}` rule |
| ToolsPrompt.SizeText | api/core/agent/tools/prompt.py:29 | a positive size is its decimal digits with thousands separators, followed by " bytes"; a missing or zero size is "unknown size" |
| ToolsPrompt.BytesTextDenotes | api/core/agent/tools/prompt.py:29 | removing the separators from the grouped size gives back the plain decimal number |
| ToolsPrompt.FilePromptShape | api/core/agent/tools/prompt.py:22-36 | the file prompt is "" exactly when there are no files; otherwise it starts with the header, ends with the fixed trailer and has no final newline |
| ToolsPrompt.GenerateFilePrompt | api/core/agent/tools/prompt.py:13-36 | the prompt built line by line is the header, one line per file numbered from 1 in input order, then the trailer |
| ToolsPrompt.FileParamNames | api/core/agent/tools/prompt.py:64-70 | the collected names are exactly the names of the FILE, FILES and SYSTEM_FILES parameters |
| ToolsPrompt.Upsert | api/core/agent/tools/prompt.py:73 | a dictionary write adds its key to the key set, and a new key is appended at the end (insertion order) |
| ToolsPrompt.UpsertUnique | api/core/agent/tools/prompt.py:73 | a dictionary write keeps the keys distinct |
| ToolsPrompt.LookupUpsert | api/core/agent/tools/prompt.py:73 | after a write, the written key reads the new value and every other key reads what it read before |
| ToolsPrompt.CollectedWellFormed | api/core/agent/tools/prompt.py:48-73 | the collected dictionary has distinct tool names, each with a non-empty parameter list |
| ToolsPrompt.LastContribution | api/core/agent/tools/prompt.py:50-73 | a tool name is absent exactly when no tool of that name has file parameters; otherwise it holds the non-empty parameters of some tool of that name |
| ToolsPrompt.CollectedLookup | api/core/agent/tools/prompt.py:50-73 | each tool name is listed with the file parameters of the last tool of that name that has any (merged runtime parameters preferred, tools without parameters skipped) |
| ToolsPrompt.QuoteAll | api/core/agent/tools/prompt.py:80 | one quoted name per parameter, in order |
| ToolsPrompt.ToolParamsPromptEmpty | api/core/agent/tools/prompt.py:75-76 | the tool prompt is "" exactly when no tool contributes a file parameter |
| ToolsPrompt.CollectFileParamNames | api/core/agent/tools/prompt.py:64-70 | the inner loop collects the names of the file parameters, in parameter order |
| ToolsPrompt.CollectToolFileParams | api/core/agent/tools/prompt.py:48-73 | the outer loop builds the insertion-ordered dictionary that `CollectFileParams` specifies |
| ToolsPrompt.GenerateToolFileParamsPrompt | api/core/agent/tools/prompt.py:39-85 | the prompt is the header, one "- name: 'p1', 'p2'" line per collected tool in insertion order, and the closing sentence, or "" when nothing was collected |
| AgentBase.TextData | api/core/agent/patterns/base.py:144-147 | the text items' data, at most one per item, and none when no item is text |
| AgentBase.TextDataSound | api/core/agent/patterns/base.py:144-147 | every extracted string is the data of some text item |
| AgentBase.TextDataComplete | api/core/agent/patterns/base.py:144-147 | the data of every text item is extracted |
| AgentBase.TextDataAllText | api/core/agent/patterns/base.py:144-147 | when every item is text, the extracted strings are the items' data, one per item, in order |
| AgentBase.ExtractText | api/core/agent/patterns/base.py:136-149 | string content is returned as it is and missing content gives ""; list content gives the text items' data joined by single spaces, which is "" when no item is text |
| AgentBase.ExtractTextJoins | api/core/agent/patterns/base.py:144-149 | two text items among non-text items give their data joined by one space |
| AgentBase.FilePart | api/core/agent/patterns/base.py:165-182 | a non-image file adds the text item "\n[File: <filename> (Type: <type or 'unknown'>)]\n"; an image adds an item exactly when its url is non-empty, and that item is a low-detail url image with the file's mime type or "image/png" |
| AgentBase.FilePartsCount | api/core/agent/patterns/base.py:165-182 | every file adds one content item, except images whose url is empty |
| AgentBase.ImageFilePartsAreImages | api/core/agent/patterns/base.py:166-177 | when every file is an image, every added item is an image item |
| AgentBase.TextDataAppend | api/core/agent/patterns/base.py:144-147 | the text items of a concatenation are those of each part, in order |
| AgentBase.ExtractTextOfImageMessage | api/core/agent/patterns/base.py:136-184 | attaching only images to a text and extracting the text back gives the text |
| AgentBase.CreateUserMessageWithFiles | api/core/agent/patterns/base.py:151-184 | the message built item by item is the user message holding a text item only for non-empty text, then one item per file as `FilePart` says |
| AgentBase.LastUserIndex | api/core/agent/patterns/base.py:112-118 | the backward scan finds a user message with no user message after it, or reports that there is none |
| AgentBase.WithFiles | api/core/agent/patterns/base.py:120-129 | without a user message exactly one user message with the files is appended; otherwise only the last user message is replaced (keeping its text) and the length and every other position are unchanged |
| AgentBase.AddTokens | api/core/agent/patterns/base.py:56-58 | the three token counters are added field by field |
| AgentBase.LLMUsage.constructor | api/core/agent/patterns/base.py:56-58 | a usage object holds the given counters |
| AgentBase.UsageTotal.constructor | api/core/agent/patterns/base.py:52 | a run's usage dictionary starts without usage |
| AgentBase.AccumulateUsage | api/core/agent/patterns/base.py:50-58 | the first delta object is stored itself, unchanged; later deltas are added into the stored object in place, field by field |
| AgentBase.CapIterations | api/core/agent/patterns/base.py:35 | the cap is the requested count when that is at most 99, and 99 otherwise |
| AgentBase.AgentPattern.constructor | api/core/agent/patterns/base.py:32-37 | the agent keeps its tools, caps the iterations at 99 and starts with no pending files |
| AgentBase.AgentPattern.PrepareMessagesWithFiles | api/core/agent/patterns/base.py:103-134 | with no pending files the given list is returned unchanged; otherwise the list of `WithFiles`; pending files are cleared afterwards |
| ReAct.StopWithObservation | api/core/agent/patterns/react.py:46-48 | the stop list contains "Observation"; it is the caller's list, extended at the end by that one word only when it was missing |
| ReAct.CleanThought | api/core/agent/patterns/react.py:132 | the recorded thought is the stripped thought, or "I am thinking about how to help you" when that is blank; it is never empty and never padded |
| ReAct.FinalText | api/core/agent/patterns/react.py:146-153 | the final text is "" when there is no action or its input is falsy; a string input is returned as it is |
| ReAct.UnitOf | api/core/agent/patterns/react.py:99-123 | a reply's unit has no observation, and its action text is the JSON of its action, or "" when it has none |
| ReAct.UnitOfNoAction | api/core/agent/patterns/react.py:108-123 | a reply has no action exactly when every chunk is text |
| ReAct.UnitOfLastAction | api/core/agent/patterns/react.py:108-114 | a reply's action is its last action chunk: no action chunk follows it |
| ReAct.ProcessChunks | api/core/agent/patterns/react.py:98-123 | the chunk loop builds the unit that `UnitOf` describes |
| ReAct.Identified | api/core/agent/patterns/react.py:211-214 | at most one listed tool per agent tool |
| ReAct.IdentifiedSound | api/core/agent/patterns/react.py:211-214 | only tools that answer `identity` are listed, and the list is empty exactly when none does |
| ReAct.MapEach | api/core/agent/patterns/react.py:214-216 | one "name: description" line and one quoted name per listed tool, in order |
| ReAct.ToolsText | api/core/agent/patterns/react.py:207-219 | without tools, or with tools left out, the texts are "No tools available" and ""; otherwise the listed tools' lines joined by newlines and their quoted names joined by ", " |
| ReAct.UnitParts | api/core/agent/patterns/react.py:226-231 | a unit contributes one non-empty line per non-empty field, and none when its thought, action and observation are all empty |
| ReAct.ScratchpadParts | api/core/agent/patterns/react.py:224-231 | every scratchpad line is non-empty |
| ReAct.ScratchpadPartsEmpty | api/core/agent/patterns/react.py:224-231 | the scratchpad has no lines exactly when every unit is blank |
| ReAct.RenderScratchpadEmpty | api/core/agent/patterns/react.py:222-232 | the rendered scratchpad is "" exactly when every unit is blank |
| ReAct.BuildPrompt | api/core/agent/patterns/react.py:196-249 | the prompt is the system message followed by the original messages unchanged, plus one assistant message holding the scratchpad exactly when the scratchpad renders non-empty |
| ReAct.PromptCarriesScratchpad | api/core/agent/patterns/react.py:246-247 | once a unit with a thought is recorded, the prompt carries the scratchpad message |
| ReAct.TemplateWithoutPlaceholders | api/core/agent/patterns/react.py:235-237 | a template without placeholders is used unchanged |
| ReAct.FormatTools | api/core/agent/patterns/react.py:207-219 | the tool loop builds the two texts of `ToolsText` |
| ReAct.FormatScratchpad | api/core/agent/patterns/react.py:222-232 | the scratchpad loop builds the text of `RenderScratchpad` |
| ReAct.BuildPromptWithReactFormat | api/core/agent/patterns/react.py:196-249 | the message list built step by step is `BuildPrompt` |
| ReAct.FirstTool | api/core/agent/patterns/react.py:289-293 | the lookup finds the first tool that answers `identity` with the action's name, or reports that none does |
| ReAct.FirstDispatcher | api/core/agent/patterns/react.py:319-323 | the map is taken from the first file dispatcher among the tools, or from none when there is none |
| ReAct.NormalizeArgs | api/core/agent/patterns/react.py:306-313 | a dictionary is kept; a string that does not decode becomes `{"input": text}`; a string that decodes to a dictionary becomes that dictionary and one that decodes to anything else stays that value; any other value becomes `{"input": str(value)}`; only a decoded string can give a non-dictionary |
| ReAct.Injected | api/core/agent/patterns/react.py:325-329 | the arguments gain the routed files' parameters; every argument already present keeps its value |
| ReAct.InjectFiles | api/core/agent/patterns/react.py:325-329 | the injection loop produces `Injected` |
| ReAct.ExplicitArgumentsWin | api/core/agent/patterns/react.py:325-329 | an argument the model gave explicitly is never overwritten by a routed file |
| ReAct.ContainsParam | api/core/agent/patterns/react.py:327 | `param_name in value` for a decoded value: a substring test on a string, a membership test on a list, and a TypeError exactly for a value that is neither string, list nor dictionary |
| ReAct.ValueInjection | api/core/agent/patterns/react.py:325-329 | routing files into a non-dictionary value succeeds exactly when the value contains every routed parameter name, and then passes the value on unchanged |
| ReAct.InjectIntoValue | api/core/agent/patterns/react.py:325-329 | the injection loop on a non-dictionary value gives `ValueInjection` |
| ReAct.TextArgumentsTakeNoFiles | api/core/agent/patterns/react.py:325-329 | a string argument that contains the parameter name goes to the tool unchanged, without the file; one that does not fails |
| ReAct.OtherArgumentsTakeNoFiles | api/core/agent/patterns/react.py:325-329 | a list holding the parameter name goes to the tool unchanged; an empty list or a number fails |
| ReAct.Collect | api/core/agent/patterns/react.py:344-364 | at most one collected file per response message |
| ReAct.CollectPartitionsFiles | api/core/agent/patterns/react.py:352-364 | every FILE message that carries a file lands in exactly one of the files for the model and the tool's output files |
| ReAct.CollectDispatch | api/core/agent/patterns/react.py:358-364 | a dispatch to "self" queues the file for the model and announces it; a dispatch to a tool makes it a tool output |
| ReAct.CollectResponses | api/core/agent/patterns/react.py:343-364 | the response loop yields the collected text and tool files and appends the "self" files to the agent's pending files |
| ReAct.InvokeFoundTool | api/core/agent/patterns/react.py:306-364 | a found tool is called with the prepared arguments and its responses are collected, the files addressed to the model being appended to the pending files; a preparation that fails returns its error and leaves the pending files alone; the only shared map that changes is the called dispatcher's, by that dispatcher's one write |
| ReAct.HandleToolCall | api/core/agent/patterns/react.py:264-379 | (the corrected call of the Findings table) the call returns `ToolCallOf` of the map as it was before: an unknown tool gives "Tool <name> not found" and changes nothing; a failed preparation fails the call; otherwise the collected text, or "Tool executed successfully" when empty, plus the output files; the pending files grow by the call's files for the model and the shared maps change exactly by the called dispatcher's write |
| ReAct.HandleToolCallAsWritten | api/core/agent/patterns/react.py:264-367 | an unknown tool gives "Tool <name> not found"; a found tool never returns an observation: a failed preparation (`TypeError` on non-dictionary arguments) propagates, and arguments that reach the tool, a decoded string or list holding every routed parameter name included, end in NameError on `files` after the pending files have grown by the call's files for the model |
| ReAct.ToolCallOf | api/core/agent/patterns/react.py:264-379 | an unknown tool gives "Tool <name> not found", queues nothing and keeps the map; a failed call queues nothing, keeps the map and had found its tool; a call that succeeds never has an empty observation; only a found dispatcher can change the map |
| ReAct.ThoughtUnit | api/core/agent/patterns/react.py:98-132 | a round's unit, before its observation, has a non-empty thought |
| ReAct.Units | api/core/agent/patterns/react.py:133 | one scratchpad unit per round played |
| ReAct.CombineUsage | api/core/agent/patterns/react.py:125-129 | the running usage is absent only while no round has reported any |
| ReAct.SumUsageTotals | api/core/agent/patterns/react.py:125-129 | when every round reports usage, the accumulated total tokens are the sum over the rounds |
| ReAct.RoundBoundCapped | api/core/agent/patterns/base.py:35 | however many iterations are requested, a run plays at most 100 rounds |
| ReAct.LaterRoundsCarryScratchpad | api/core/agent/patterns/react.py:246-247 | every round after the first is prompted with the scratchpad of the rounds before it |
| ReAct.RecordUsage | api/core/agent/patterns/react.py:125-129 | a reported usage is stored when none was, and added into the stored one otherwise |
| ReAct.Think | api/core/agent/patterns/react.py:80-133 | the pending files are attached to the prompt and then cleared; the model's reply becomes the round's unit with its thought cleaned, and its usage is recorded |
| ReAct.PlayRound | api/core/agent/patterns/react.py:80-173 | with the corrected `HandleToolCall`: a round answers its prompt with the pending files attached; a final round calls nothing and has no observation or tool files; any other round records `ToolCallOf` of its action on the map it read, takes the observation and tool files of a successful call, fails exactly when the call fails, and leaves the call's files for the model pending and the map as the call left it |
| ReAct.Settle | api/core/agent/patterns/react.py:133-189 | with the corrected `HandleToolCall`: a final round ends the run with its final text; a failed round ends it with no observation; any other round extends the scratchpad and the tool files, rebuilds the prompt with tools and advances the step |
| ReAct.RoundPrompt | api/core/agent/patterns/react.py:62-66 | the last allowed round is prompted again without the tools; other rounds keep the current prompt |
| ReAct.PlayNext | api/core/agent/patterns/react.py:62-173 | with the corrected `HandleToolCall`: the next round is prompted without tools exactly on the last allowed round, with the scratchpad of the rounds so far; it reads the files and map the round before left, records its tool call, and the usage it reports is combined into the total |
| ReAct.Iterate | api/core/agent/patterns/react.py:53-189 | with the corrected `HandleToolCall`: one pass of the loop records one round more that keeps the loop's state: its prompt, reply and call are as `RoundOk` and `CallRecorded` say, it reads the files and map the round before left, and the step advances unless the round ended the run |
| ReAct.Step | api/core/agent/patterns/react.py:53-189 | with the corrected `HandleToolCall`: one pass of the loop keeps the loop's state, the calls of every round and the link of each round to the one before; the run has failed exactly when the last round failed, with that round's error; the total usage is the sum over the rounds |
| ReAct.Stopped | api/core/agent/patterns/react.py:146-166 | with the corrected `HandleToolCall`: no round before the last ended the run, and a run that stops stopped at a round that ended it or at the round bound |
| ReAct.PlayRounds | api/core/agent/patterns/react.py:53-189 | with the corrected `HandleToolCall`: the loop plays rounds that keep `Rounds`, `Calls` and `Matched`, the first reading the agent's pending files and map; at most the round bound, only the last ending the run; it fails exactly when the last round failed; otherwise it stopped at a final answer or the bound; its text, files and usage are the last final text, all tool files and the summed usage |
| ReAct.Run | api/core/agent/patterns/react.py:28-194 | with the corrected `HandleToolCall`: every round is prompted and answered as `RoundOk` says and records the tool call of its action (`Matched`), each call reading the files and map the round before left; at most the capped iterations plus one rounds are played and only the last may end the run; a failed call fails the run with its error; otherwise the result is the last round's final text, the tool files of all rounds and the summed usage |
| Token.Cookie | api/libs/token.py:59-80 | a cookie read is absent exactly when no request cookie has that name, and otherwise is the value of one that has |
| Token.CookieNames | api/libs/token.py:156 | iterating `request.cookies` gives each cookie name once: no name repeats, and a name is given exactly when some request cookie has it |
| Token.CookieNamesOnce | api/libs/token.py:156 | a name sent twice is given once, at its first position |
| Token.TryExtractFromHeaderAsWritten | api/libs/token.py:26-41 | the header parser as written fails only with a ValueError, from unpacking the split |
| Token.TryExtractFromHeader | api/libs/token.py:26-41 | a missing or empty header, or one without a space, gives no token; a token found is non-empty and does not start with whitespace |
| Token.TryExtractFromHeaderAgrees | api/libs/token.py:26-41 | the corrected parser returns what the parser as written returns whenever that does not raise, and no token where it raises |
| Token.BearerWithoutToken | api/libs/token.py:35 | the header "Bearer " makes the parser as written raise, while the corrected one returns no token |
| Token.SplitSchemeAndToken | api/libs/token.py:35 | a scheme word, one space and a token split into exactly the scheme and the token |
| Token.BearerRoundTrip | api/libs/token.py:35-40 | a header made of "bearer" in any letter case, a space and a token gives back exactly that token |
| Token.OtherSchemeRejected | api/libs/token.py:36-38 | any other scheme gives no token |
| Token.ExtractAccessToken | api/libs/token.py:51-65 | a non-empty access-token cookie is returned as it is |
| Token.ExtractWebappPassport | api/libs/token.py:68-87 | a non-empty cookie "<passport>-<app_code>" is returned as it is |
| Token.OrChain | api/libs/token.py:64-86 | a three-way `or` gives the first non-empty source, and the last source (even empty) when neither of the first two is non-empty |
| Token.AccessTokenPrecedence | api/libs/token.py:64 | over the corrected `TryExtractFromHeader`: the cookie, then the header, then the `_token` query argument; an empty value counts as absent, and a token is found exactly when some source is non-empty |
| Token.PassportPrecedence | api/libs/token.py:82-86 | over the corrected `TryExtractFromHeader`: the app's cookie, then the header, then the `web_app_access_token` query argument, with the same rule |
| Token.CheckCsrfToken | api/libs/token.py:180-200 | every rejection is Unauthorized("CSRF token is missing.") |
| Token.CsrfAccepted | api/libs/token.py:180-200 | the check passes if and only if the token is present, verification does not raise, and `exp` is present, non-zero and not below now |
| Token.CsrfExpiryBoundary | api/libs/token.py:199 | a token that expires this very second passes, and one that expired a second ago fails |
| Token.Response.constructor | api/libs/token.py:114-165 | a new response sets no cookies |
| Token.Response.Set | api/libs/token.py:120-144 | setting a cookie appends exactly that record |
| Token.PassportCookie | api/libs/token.py:114-128 | the passport cookie is "<passport>-<app_code>" holding the token, http-only, path "/", secure exactly when both console URLs use https, and SameSite "None" exactly when secure, "Lax" otherwise |
| Token.PassportCookieAccepted | api/libs/token.py:115-124 | a SameSite "None" passport cookie is always secure |
| Token.SetPassportToCookie | api/libs/token.py:114-128 | the response gains exactly the passport cookie |
| Token.ClearingCookie | api/libs/token.py:143-152 | a clearing cookie is empty, expires at 0, has no max age and is http-only |
| Token.ClearCookie | api/libs/token.py:143-152 | the response gains exactly one clearing cookie |
| Token.ClearedWithPrefix | api/libs/token.py:155-158 | at most one clearing cookie per distinct request cookie name |
| Token.ClearedWithPrefixExactly | api/libs/token.py:155-158 | over the distinct names of the request cookies: every cleared cookie is a clearing cookie of a request cookie name with the prefix, every such name is cleared, and no name is cleared twice |
| Token.ClearCookieBeginWith | api/libs/token.py:155-158 | the loop over the request's distinct cookie names appends one clearing cookie per name with the prefix, in first-occurrence order |
| Token.ClearPassportFromCookie | api/libs/token.py:161-165 | without an app code one clearing cookie per distinct request cookie name starting with the passport name; with one, exactly the app's cookie is cleared |
| RunAdapter.StatusToRun | api/core/workflow/adapters/workflow_execution_to_run_adapter.py:50-68 | each of the five statuses maps to its own string, and any other status maps to "running"; the result is always one of the five strings |
| RunAdapter.StatusFromRun | api/core/workflow/adapters/workflow_execution_to_run_adapter.py:96-112 | a listed string maps back to its status, and any other string maps to RUNNING |
| RunAdapter.StatusRoundTrip | api/core/workflow/adapters/workflow_execution_to_run_adapter.py:50-102 | the two tables are inverse in both directions on the five statuses and the five strings |
| RunAdapter.Encoded | api/core/workflow/adapters/workflow_execution_to_run_adapter.py:66-69 | a falsy value becomes `None`, and a truthy one is encoded as JSON text of that value |
| RunAdapter.ToWorkflowRun | api/core/workflow/adapters/workflow_execution_to_run_adapter.py:58-80 | the context fields come from the arguments, not the entity; graph, inputs and outputs are `None` exactly when falsy; the status is a listed string |
| RunAdapter.FromWorkflowRun | api/core/workflow/adapters/workflow_execution_to_run_adapter.py:104-119 | the entity is built exactly when the row's type is a workflow type and the row has a creation time; an unknown type fails with "'<type>' is not a valid WorkflowType"; the status comes from the inverse table, and the error message is "" exactly when the row's error is `None` or empty |
| RunAdapter.AdapterRoundTrip | api/core/workflow/adapters/workflow_execution_to_run_adapter.py:58-119 | an entity whose graph, inputs and outputs are mappings and whose status is listed comes back unchanged from a row |
| RunAdapter.FieldsCopied | api/core/workflow/adapters/workflow_execution_to_run_adapter.py:59-118 | the id, start/creation time, finish time, token, step and exception counts are copied unchanged in both directions, and the error is copied verbatim to the row |
| WorkflowRecords.DropNulls | api/repositories/elasticsearch_api_workflow_run_repository.py:166-167 | the stored document keeps exactly the keys whose value is not `None`, each with its value |
| WorkflowRecords.SourceOf | api/repositories/elasticsearch_api_workflow_run_repository.py:179 | a hit's `_source` dictionary is read when present, and the document itself otherwise |
| WorkflowRecords.Required | api/repositories/elasticsearch_api_workflow_run_repository.py:182-188 | `source[key]` succeeds exactly when the key is present, with its value; otherwise `KeyError` |
| WorkflowRecords.AsStr | api/repositories/elasticsearch_api_workflow_run_repository.py:182-188 | a stored value reads as a string exactly when it is one, and reads as that string |
| WorkflowRecords.AsOptStr | api/repositories/elasticsearch_api_workflow_run_repository.py:193 | a stored optional string reads back exactly when it is `None` or a string, and reading inverts storing |
| WorkflowRecords.AsInt | api/repositories/elasticsearch_api_workflow_run_repository.py:195-196 | a stored value reads as an integer exactly when it is one, and reads as that integer |
| WorkflowRecords.AsReal | api/repositories/elasticsearch_api_workflow_run_repository.py:194 | a stored number reads as a float exactly when it is a float or an integer; a float reads as itself |
| WorkflowRecords.AsOptTime | api/repositories/elasticsearch_api_workflow_run_repository.py:199-200 | a stored optional time reads back exactly when it is `None` or ISO text, and reading inverts storing |
| WorkflowRecords.ParsedTime | api/repositories/elasticsearch_api_workflow_run_repository.py:199-200 | a missing or falsy time reads as `None`; ISO text reads as the instant it denotes |
| WorkflowRecords.RoleOf | api/core/repositories/elasticsearch_workflow_execution_repository.py:79 | the creator role is `account` exactly when the user is an account, else `end_user` |
| EsClient.Client.constructor | api/extensions/ext_elasticsearch.py:65-79 | a new client has sent nothing and answers through the given store |
| EsClient.Client.Call | api/repositories/elasticsearch_api_workflow_run_repository.py:215-220 | a call appends exactly its request to the client's log and returns the store's answer to the log so far |
| EsClient.DeletedOrZero | api/repositories/elasticsearch_api_workflow_run_repository.py:407 | `response.get("deleted", 0)` is a count exactly when the reply is a deletion reply |
| EsClient.EnsureIndexTemplate | api/repositories/elasticsearch_api_workflow_run_repository.py:82-131 | one template request covering `{prefix}-*` is sent, and the call succeeds exactly when the store does not raise |
| EsClient.MapAllOk | api/repositories/elasticsearch_api_workflow_run_repository.py:285-288 | converting all hits succeeds exactly when every hit converts, and then yields each hit's conversion at its position |
| EsClient.MapAllErrPrefix | api/repositories/elasticsearch_api_workflow_run_repository.py:285-288 | the first failing hit decides the failure of the whole conversion |
| EsClient.ConvertAll | api/repositories/elasticsearch_api_workflow_run_repository.py:285-288 | the conversion loop computes the conversion of all hits, stopping at the first error |
| EsClient.IndexName | api/repositories/elasticsearch_api_workflow_run_repository.py:66-80 | the index name starts with `{prefix}-{tenant}-` and its last '-' segment is the "YYYY.MM" month of the date |
| EsClient.DatedIndexName | api/repositories/elasticsearch_api_workflow_run_repository.py:77-80 | with no date given, the current month names the index; otherwise the given date's month |
| EsClient.ExpiredIndicesMembers | api/repositories/elasticsearch_api_workflow_run_repository.py:467-475 | the indices selected for deletion are exactly the listed indices whose month segment sorts before the cutoff month |
| EsClient.ExpiredByMonth | api/repositories/elasticsearch_api_workflow_run_repository.py:460-472 | for an index named by the rotation rule, being selected means exactly that its month is earlier than the cutoff's month |
| EsClient.SelectExpired | api/repositories/elasticsearch_api_workflow_run_repository.py:467-475 | the selection loop keeps exactly the expired indices, in listed order |
| EsClient.CleanupOldIndices | api/repositories/elasticsearch_api_workflow_run_repository.py:451-483 | the tenant's indices are listed first; then one deletion of the expired ones, joined with ',', is sent only when there are any; a failed listing sends nothing more and fails |
| EsClient.FirstHit | api/repositories/elasticsearch_api_workflow_run_repository.py:331-335 | a lookup gives `None` exactly when the response counts no hit, and otherwise the first hit converted |
| EsClient.Paginate | api/repositories/elasticsearch_api_workflow_run_repository.py:291-295 | there is a next page exactly when more than `limit` hits came back |
| EsClient.PaginateBound | api/repositories/elasticsearch_api_workflow_run_repository.py:275-295 | a page holds at most `limit` items, the first ones returned, and is full whenever more follow |
| EsClient.OffsetResult | api/repositories/elasticsearch_api_workflow_run_repository.py:560-566 | more results exist exactly when the total exceeds offset plus limit |
| EsClient.DateRange | api/repositories/elasticsearch_api_workflow_run_repository.py:523-529 | a `created_at` range with both bounds is added exactly when either bound is given |
| EsRunRepository.ToEsDocumentFields | api/repositories/elasticsearch_api_workflow_run_repository.py:133-167 | a stored run holds no `None`; every kept key holds the run's own field, and only `None` fields are left out |
| EsRunRepository.FromEsDocument | api/repositories/elasticsearch_api_workflow_run_repository.py:169-202 | a document wrapping a non-dictionary `_source` cannot be read |
| EsRunRepository.ReadsBack | api/repositories/elasticsearch_api_workflow_run_repository.py:181-202 | a document that holds a run's fields reads back as exactly those fields, defaults included |
| EsRunRepository.StoredId | api/repositories/elasticsearch_api_workflow_run_repository.py:143-182 | the stored id reads back |
| EsRunRepository.StoredTenant | api/repositories/elasticsearch_api_workflow_run_repository.py:145-183 | the stored tenant reads back |
| EsRunRepository.StoredApp | api/repositories/elasticsearch_api_workflow_run_repository.py:146-185 | the stored app and workflow ids read back |
| EsRunRepository.StoredTrigger | api/repositories/elasticsearch_api_workflow_run_repository.py:148-187 | the stored type and trigger read back |
| EsRunRepository.StoredState | api/repositories/elasticsearch_api_workflow_run_repository.py:150-191 | the stored version and status read back |
| EsRunRepository.StoredCreator | api/repositories/elasticsearch_api_workflow_run_repository.py:159-198 | the stored creator role and creator read back |
| EsRunRepository.StoredGraph | api/repositories/elasticsearch_api_workflow_run_repository.py:151-190 | the stored graph and inputs read back when they are not `None` |
| EsRunRepository.StoredOutputs | api/repositories/elasticsearch_api_workflow_run_repository.py:154-193 | the stored outputs read back when not `None`, and the error reads back, `None` included |
| EsRunRepository.StoredUsage | api/repositories/elasticsearch_api_workflow_run_repository.py:156-195 | the stored elapsed time and token count read back |
| EsRunRepository.StoredSteps | api/repositories/elasticsearch_api_workflow_run_repository.py:158-196 | the stored step count reads back |
| EsRunRepository.StoredExceptions | api/repositories/elasticsearch_api_workflow_run_repository.py:163-201 | the stored exception count reads back |
| EsRunRepository.StoredTimes | api/repositories/elasticsearch_api_workflow_run_repository.py:161-200 | the stored ISO creation and finish times parse back to the same instants, `None` included |
| EsRunRepository.StoredUnwrapped | api/repositories/elasticsearch_api_workflow_run_repository.py:143-179 | a stored document has no `_source` key, so it is read as it is |
| EsRunRepository.StoredRun | api/repositories/elasticsearch_api_workflow_run_repository.py:133-202 | a stored run holds all of its fields |
| EsRunRepository.EsRoundTrip | api/repositories/elasticsearch_api_workflow_run_repository.py:133-202 | reading what `_to_es_document` wrote gives back the run's fields, directly or as a search hit, when its JSON columns are not `null` |
| EsRunRepository.MissingFieldRaises | api/repositories/elasticsearch_api_workflow_run_repository.py:182 | a document without `id` fails with `KeyError('id')` |
| EsRunRepository.OptionalDefaults | api/repositories/elasticsearch_api_workflow_run_repository.py:189-196 | missing optional fields read as `{}`, `None`, `0.0` and `0` |
| EsRunRepository.PageQuery | api/repositories/elasticsearch_api_workflow_run_repository.py:244-270 | the pagination query filters by tenant, app and trigger, and adds `created_at < cursor` exactly when a cursor is given |
| EsRunRepository.SearchClausesTerms | api/repositories/elasticsearch_api_workflow_run_repository.py:514-520 | the tenant filter comes first; the app and status filters are present exactly when those arguments are given |
| EsRunRepository.SearchClausesRange | api/repositories/elasticsearch_api_workflow_run_repository.py:523-529 | there is a date range exactly when either bound is given, and it is on `created_at` between the given bounds |
| EsRunRepository.SearchQueryShape | api/repositories/elasticsearch_api_workflow_run_repository.py:531-540 | a keyword adds its three match clauses on inputs, outputs and error, with one required to match, exactly when it is given |
| EsRunRepository.RunRepository.constructor | api/repositories/elasticsearch_api_workflow_run_repository.py:46-64 | the repository keeps the client and the index prefix |
| EsRunRepository.RunRepository.Save | api/repositories/elasticsearch_api_workflow_run_repository.py:204-226 | one indexing request of the run's document, into the month of its creation or of now, is sent; the call fails exactly when the store raises |
| EsRunRepository.RunRepository.GetWorkflowRunById | api/repositories/elasticsearch_api_workflow_run_repository.py:301-339 | one search of the tenant's indices for at most one hit with this id, tenant and app is sent; the result is the first hit's fields, or `None` when none counts |
| EsRunRepository.RunRepository.GetPaginatedWorkflowRuns | api/repositories/elasticsearch_api_workflow_run_repository.py:228-299 | with a cursor id, that run is looked up first and a missing one fails with "Last workflow run not exists"; then one newest-first search of `limit + 1` hits created before the cursor run is sent, and the page is those hits paginated |
| EsRunRepository.RunRepository.GetExpiredRunsBatch | api/repositories/elasticsearch_api_workflow_run_repository.py:341-380 | one oldest-first search of at most `batch_size` of the tenant's runs created before the date is sent, and all its hits are converted |
| EsRunRepository.RunRepository.DeleteRunsByIds | api/repositories/elasticsearch_api_workflow_run_repository.py:382-413 | no ids sends nothing and deletes 0; otherwise one delete-by-query of those ids over all `{prefix}-*` indices, with the deleted count or 0 |
| EsRunRepository.RunRepository.DeleteRunsByApp | api/repositories/elasticsearch_api_workflow_run_repository.py:415-449 | one delete-by-query of the tenant's app over the tenant's indices is sent, with the deleted count or 0 |
| EsRunRepository.RunRepository.CleanupOldIndices | api/repositories/elasticsearch_api_workflow_run_repository.py:451-483 | the tenant's indices are listed, then those before the cutoff month are deleted in one call when there are any |
| EsRunRepository.RunRepository.SearchWorkflowRuns | api/repositories/elasticsearch_api_workflow_run_repository.py:485-570 | one newest-first search from the offset is sent; the result holds the converted hits, the total, and `has_more` exactly when the total exceeds offset plus limit |
| EsRunRepository.NewRunRepository | api/repositories/elasticsearch_api_workflow_run_repository.py:46-64 | with no configured client the construction fails with the configuration `ValueError`; otherwise the index template is installed and construction fails exactly when that call raises |
| EsAppLogRepository.AllKeysWritten | api/repositories/elasticsearch_workflow_app_log_repository.py:99-119 | the document always holds the nine keys, none stripped; only the creation time can be `None`, exactly when the log has none |
| EsAppLogRepository.FromEsDocument | api/repositories/elasticsearch_workflow_app_log_repository.py:121-144 | a document wrapping a non-dictionary `_source` cannot be read |
| EsAppLogRepository.FieldsOfInjective | api/repositories/elasticsearch_workflow_app_log_repository.py:133-142 | the attributes read back determine the app log: distinct logs read back differently |
| EsAppLogRepository.StoredIds | api/repositories/elasticsearch_workflow_app_log_repository.py:110-135 | a stored log is unwrapped, and its id and tenant read back |
| EsAppLogRepository.StoredWorkflow | api/repositories/elasticsearch_workflow_app_log_repository.py:112-138 | the stored app, workflow and run ids read back |
| EsAppLogRepository.StoredCreator | api/repositories/elasticsearch_workflow_app_log_repository.py:115-142 | the stored source, creator role, creator and ISO creation time read back, `None` included |
| EsAppLogRepository.StoredLog | api/repositories/elasticsearch_workflow_app_log_repository.py:109-142 | a stored log holds all of the log's attributes |
| EsAppLogRepository.EsRoundTrip | api/repositories/elasticsearch_workflow_app_log_repository.py:109-144 | reading what `_to_es_document` wrote gives back the same log, directly or as a search hit |
| EsAppLogRepository.MissingFieldRaises | api/repositories/elasticsearch_workflow_app_log_repository.py:134-141 | a document missing any of the eight identifying fields cannot be read |
| EsAppLogRepository.LogsClausesShape | api/repositories/elasticsearch_workflow_app_log_repository.py:238-255 | tenant and app filters come first; the source filter is present exactly when given; a `created_at` range is present exactly when a bound is given, between the given bounds |
| EsAppLogRepository.AppLogRepository.constructor | api/repositories/elasticsearch_workflow_app_log_repository.py:30-39 | the repository keeps the client and the index prefix |
| EsAppLogRepository.AppLogRepository.Save | api/repositories/elasticsearch_workflow_app_log_repository.py:146-168 | one indexing request of the log's document, into the month of its creation or of now, is sent; the call fails exactly when the store raises |
| EsAppLogRepository.AppLogRepository.GetById | api/repositories/elasticsearch_workflow_app_log_repository.py:170-209 | one search of the tenant's indices for at most one hit is sent; the result is the first hit read back, or `None` when none counts |
| EsAppLogRepository.AppLogRepository.GetPaginatedLogs | api/repositories/elasticsearch_workflow_app_log_repository.py:211-285 | one newest-first search from the offset is sent; the result holds the converted hits, the total, and `has_more` exactly when the total exceeds offset plus limit |
| EsAppLogRepository.AppLogRepository.DeleteByApp | api/repositories/elasticsearch_workflow_app_log_repository.py:287-322 | one delete-by-query of the tenant's app over the tenant's indices is sent, with the deleted count or 0 |
| EsAppLogRepository.AppLogRepository.DeleteExpiredLogs | api/repositories/elasticsearch_workflow_app_log_repository.py:324-359 | one delete-by-query of the tenant's logs created before the date is sent, with the deleted count or 0 |
| EsAppLogRepository.AppLogRepository.CleanupOldIndices | api/repositories/elasticsearch_workflow_app_log_repository.py:361-393 | the tenant's indices are listed, then those before the cutoff month are deleted in one call when there are any |
| EsAppLogRepository.NewAppLogRepository | api/repositories/elasticsearch_workflow_app_log_repository.py:30-42 | construction installs the index template and fails exactly when that call raises |
| EsNodeExecutionRepository.Validate | api/core/repositories/elasticsearch_workflow_node_execution_repository.py:237-256 | arguments that the entity accepts, with a float elapsed time, make up exactly the execution built from them |
| EsNodeExecutionRepository.ValidateFieldsOf | api/core/repositories/elasticsearch_workflow_node_execution_repository.py:237-256 | an execution's own fields are always accepted, and build that execution |
| EsNodeExecutionRepository.FromEsDocument | api/core/repositories/elasticsearch_workflow_node_execution_repository.py:223-256 | a document wrapping a non-dictionary `_source` cannot be read |
| EsNodeExecutionRepository.ReadsBack | api/core/repositories/elasticsearch_workflow_node_execution_repository.py:235-256 | a document that holds an execution's fields reads back as exactly those fields, defaults included |
| EsNodeExecutionRepository.WrittenId | api/core/repositories/elasticsearch_workflow_node_execution_repository.py:195-200 | the written document holds the id and the node execution id |
| EsNodeExecutionRepository.WrittenWorkflow | api/core/repositories/elasticsearch_workflow_node_execution_repository.py:198-199 | the written document holds the workflow id and the run id |
| EsNodeExecutionRepository.WrittenPosition | api/core/repositories/elasticsearch_workflow_node_execution_repository.py:202-203 | the written document holds the index and the predecessor |
| EsNodeExecutionRepository.WrittenNode | api/core/repositories/elasticsearch_workflow_node_execution_repository.py:204-205 | the written document holds the node id and type |
| EsNodeExecutionRepository.WrittenTitle | api/core/repositories/elasticsearch_workflow_node_execution_repository.py:206-207 | the written document holds the title and the inputs |
| EsNodeExecutionRepository.WrittenData | api/core/repositories/elasticsearch_workflow_node_execution_repository.py:208-209 | the written document holds the process data and the outputs |
| EsNodeExecutionRepository.WrittenStatus | api/core/repositories/elasticsearch_workflow_node_execution_repository.py:210-211 | the written document holds the status and the error |
| EsNodeExecutionRepository.WrittenUsage | api/core/repositories/elasticsearch_workflow_node_execution_repository.py:212-213 | the written document holds the elapsed time and the metadata |
| EsNodeExecutionRepository.WrittenTimes | api/core/repositories/elasticsearch_workflow_node_execution_repository.py:214-215 | the written document holds the ISO creation and finish times, or `None` |
| EsNodeExecutionRepository.WrittenCreator | api/core/repositories/elasticsearch_workflow_node_execution_repository.py:196-217 | the written document holds the repository's tenant and creating user |
| EsNodeExecutionRepository.WrittenContext | api/core/repositories/elasticsearch_workflow_node_execution_repository.py:197-201 | the written document holds the repository's app and trigger, or `None` |
| EsNodeExecutionRepository.StoredIdentity | api/core/repositories/elasticsearch_workflow_node_execution_repository.py:194-245 | the stored identifying fields, position and node read back, optional ones as `None` when absent |
| EsNodeExecutionRepository.StoredData | api/core/repositories/elasticsearch_workflow_node_execution_repository.py:206-251 | the stored title, data, status and error read back |
| EsNodeExecutionRepository.StoredUsage | api/core/repositories/elasticsearch_workflow_node_execution_repository.py:212-255 | the stored elapsed time, the metadata when present, and the timestamps read back |
| EsNodeExecutionRepository.StoredUnwrapped | api/core/repositories/elasticsearch_workflow_node_execution_repository.py:194-235 | a stored document has no `_source` key, so it is read as it is |
| EsNodeExecutionRepository.StoredExecution | api/core/repositories/elasticsearch_workflow_node_execution_repository.py:194-256 | a stored execution holds all of its fields |
| EsNodeExecutionRepository.EsRoundTrip | api/core/repositories/elasticsearch_workflow_node_execution_repository.py:184-256 | reading what `_to_es_document` wrote gives back the same execution, directly or as a search hit, when it has metadata |
| EsNodeExecutionRepository.StoredScope | api/core/repositories/elasticsearch_workflow_node_execution_repository.py:196-217 | every stored document carries the repository's tenant and creator |
| EsNodeExecutionRepository.StoredContext | api/core/repositories/elasticsearch_workflow_node_execution_repository.py:197-201 | the app and trigger are stored exactly when the repository has them |
| EsNodeExecutionRepository.DataUpdate | api/core/repositories/elasticsearch_workflow_node_execution_repository.py:296-303 | the partial update holds exactly the data fields that are not `None`, and is empty exactly when all three are |
| EsNodeExecutionRepository.Patched | api/core/repositories/elasticsearch_workflow_node_execution_repository.py:319-326 | the cached execution takes each data field that is not `None` and keeps everything else |
| EsNodeExecutionRepository.UpdateAgreesWithPatch | api/core/repositories/elasticsearch_workflow_node_execution_repository.py:296-326 | every field of the store's partial update equals the same field of the patched execution's document, so store and cache agree |
| EsNodeExecutionRepository.PatchedIdempotent | api/core/repositories/elasticsearch_workflow_node_execution_repository.py:319-326 | applying the same update twice is applying it once, and an execution's own data changes nothing |
| EsNodeExecutionRepository.RunClausesMatchScope | api/core/repositories/elasticsearch_workflow_node_execution_repository.py:354-367 | every execution the repository stores matches the query's tenant, app and trigger terms |
| EsNodeExecutionRepository.SortConfig | api/core/repositories/elasticsearch_workflow_node_execution_repository.py:369-380 | with fields configured, one key per field in order, descending exactly for "desc"; otherwise index then created_at, ascending |
| EsNodeExecutionRepository.SortFields | api/core/repositories/elasticsearch_workflow_node_execution_repository.py:372-374 | each field becomes one sort key in the given direction, in order |
| EsNodeExecutionRepository.CacheAllKeys | api/core/repositories/elasticsearch_workflow_node_execution_repository.py:394-399 | caching a list keeps every earlier id and adds every listed id |
| EsNodeExecutionRepository.CacheAllLast | api/core/repositories/elasticsearch_workflow_node_execution_repository.py:394-399 | a listed id holds the last execution listed with it |
| EsNodeExecutionRepository.CacheAllUntouched | api/core/repositories/elasticsearch_workflow_node_execution_repository.py:394-399 | an id not listed keeps its cached execution |
| EsNodeExecutionRepository.NodeRepository.constructor | api/core/repositories/elasticsearch_workflow_node_execution_repository.py:69-88 | the repository keeps its client, prefix and scope, and its cache starts empty |
| EsNodeExecutionRepository.NodeRepository.Save | api/core/repositories/elasticsearch_workflow_node_execution_repository.py:258-284 | one indexing request into the month of creation or of now is sent; the execution is cached exactly when the store accepts it |
| EsNodeExecutionRepository.NodeRepository.SaveExecutionData | api/core/repositories/elasticsearch_workflow_node_execution_repository.py:286-335 | with no data nothing is sent; otherwise one partial update, then the cached copy is patched; a document the store lacks is saved whole instead |
| EsNodeExecutionRepository.NodeRepository.GetByWorkflowRun | api/core/repositories/elasticsearch_workflow_node_execution_repository.py:337-405 | one search of the tenant's indices for up to 10000 hits, in the configured order, is sent; the result is all hits converted, and every hit converted before a failure is cached |
| EsNodeExecutionRepository.NodeRepository.CacheHits | api/core/repositories/elasticsearch_workflow_node_execution_repository.py:394-401 | the loop converts the hits in order and caches each under its id; a failing hit stops it with the earlier ones cached |
| EsNodeExecutionRepository.NewNodeRepository | api/core/repositories/elasticsearch_workflow_node_execution_repository.py:44-91 | no configured client or no tenant fails with the source's `ValueError` messages; otherwise the template is installed, the cache starts empty and the scope holds the user's tenant, id and role |
| EsExecutionRepository.ElapsedTime | api/core/repositories/elasticsearch_workflow_execution_repository.py:182-185 | the elapsed time is the seconds from start to finish for a finished execution, and `0.0` otherwise |
| EsExecutionRepository.ErrorValue | api/core/repositories/elasticsearch_workflow_execution_repository.py:199 | `error_message or None`: no error exactly when the message is empty, otherwise the message |
| EsExecutionRepository.RunOf | api/core/repositories/elasticsearch_workflow_execution_repository.py:187-208 | the run an execution stands for has its id, the repository's tenant, and its start as the creation time |
| EsExecutionRepository.DocumentIsRunDocument | api/core/repositories/elasticsearch_workflow_execution_repository.py:171-211 | an execution's document is exactly the document the run repository writes for the run it stands for |
| EsExecutionRepository.ReadableAsRun | api/core/repositories/elasticsearch_workflow_execution_repository.py:171-211 | the run repository reads an execution's document back as that run's fields, when its JSON fields are not `None` |
| EsExecutionRepository.MatchesAdapter | api/core/repositories/elasticsearch_workflow_execution_repository.py:171-211 | the run the document stands for is the adapter's run row for non-empty JSON fields, a present error and a listed status |
| EsExecutionRepository.RunIndex | api/core/repositories/elasticsearch_workflow_execution_repository.py:228 | the save goes to the `dify-workflow-runs` index of the tenant for the month the execution started, whatever the repository's own prefix |
| EsExecutionRepository.ExecutionRepository.constructor | api/core/repositories/elasticsearch_workflow_execution_repository.py:63-79 | the repository keeps its client, prefix and scope |
| EsExecutionRepository.ExecutionRepository.Save | api/core/repositories/elasticsearch_workflow_execution_repository.py:213-241 | one indexing request of the run document into the run indices is sent; the call fails exactly when the store raises |
| EsExecutionRepository.NewExecutionRepository | api/core/repositories/elasticsearch_workflow_execution_repository.py:38-82 | no configured client or no tenant fails with the source's `ValueError` messages; otherwise the template is installed under the repository's own prefix and the scope holds the user's tenant, id and role |
| MigrationService.ServiceClient | api/services/elasticsearch_migration_service.py:52 | `es_client or elasticsearch.client`: the given client when there is one, else the process-wide client |
| MigrationService.MigrationService.constructor | api/services/elasticsearch_migration_service.py:56-61 | the service keeps its client, batch size and the two repositories |
| MigrationService.MigrationService.MigrateWorkflowRuns | api/services/elasticsearch_migration_service.py:63-152 | the run migration returns the statistics and sends exactly the calls of the batch migration, each run going through the run repository's own save |
| MigrationService.MigrationService.MigrateWorkflowAppLogs | api/services/elasticsearch_migration_service.py:154-243 | the app-log migration returns the statistics and sends exactly the calls of the batch migration, each log going through the app-log repository's own save |
| MigrationService.MigrationService.MigrateWorkflowNodeExecutions | api/services/elasticsearch_migration_service.py:245-356 | the node-execution migration returns the statistics and sends exactly the calls of the batch migration, each row converted and indexed by the service's client |
| MigrationService.MigrationService.ValidateMigration | api/services/elasticsearch_migration_service.py:418-496 | the sampled runs, then the sampled app logs, are looked up one call each, in order; the report is the counters and messages those replies give, and node executions are never checked |
| MigrationService.MigrationService.CleanupOldPgData | api/services/elasticsearch_migration_service.py:515-632 | each table's count is the number of the tenant's rows created before the date; a dry run changes nothing; otherwise those rows are deleted, offloads, node executions, app logs, runs in that order, and the session commits |
| MigrationService.NewMigrationService | api/services/elasticsearch_migration_service.py:44-61 | with neither a given nor a process-wide client construction fails; otherwise both repositories are built over the service's client, each installing its template in turn, and a failure stops construction |
| MigrationService.NewMigrationServiceAsWritten | api/services/elasticsearch_migration_service.py:52-61 | as written, the run repository takes the process-wide client rather than the service's: a service given its own client fails when no process-wide client is configured, and otherwise writes runs through another client |
| MigrationService.FailureMessage | api/services/elasticsearch_migration_service.py:337 | a failure message starts with "Failed to migrate", the kind and the id |
| MigrationService.SentAppend | api/services/elasticsearch_migration_service.py:115-138 | the calls sent for a concatenation of rows are the calls for each part, concatenated |
| MigrationService.MigratedAppend | api/services/elasticsearch_migration_service.py:115-138 | migrating two lists in turn is migrating their concatenation, the second on the log the first left |
| MigrationService.MigratedCounts | api/services/elasticsearch_migration_service.py:124-136 | every row is counted once, as migrated or as failed; the total is untouched; each failure adds one message naming the kind, and earlier messages stay |
| MigrationService.FailurePrefix | api/services/elasticsearch_migration_service.py:337 | a failure message begins with the kind of record |
| MigrationService.Batch | api/services/elasticsearch_migration_service.py:117-118 | `offset(offset).limit(size)` is empty exactly past the end or with size 0, and otherwise the slice of up to `size` rows from the offset |
| MigrationService.Reached | api/services/elasticsearch_migration_service.py:115-121 | the batches reach no further than the rows there are |
| MigrationService.ReachedBounds | api/services/elasticsearch_migration_service.py:115-121 | with a positive batch size every row up to the count is reached, and all rows when the count covers them; a batch size of 0 reaches nothing |
| MigrationService.MigrationOf | api/services/elasticsearch_migration_service.py:84-138 | a dry run reports only the count and sends nothing; the statistics keep the count, have one message per failure and never exceed the rows; with a positive batch size and a count covering the rows every row is migrated or failed |
| MigrationService.BatchStep | api/services/elasticsearch_migration_service.py:115-138 | one batch more migrates and sends the rows up to the next offset, in order |
| MigrationService.ReachedStep | api/services/elasticsearch_migration_service.py:116-138 | a non-empty batch below the count moves the offset without changing how far the batches get |
| MigrationService.MigrateRows | api/services/elasticsearch_migration_service.py:84-138 | the shared batch migration returns what the migration specification gives and sends exactly its calls |
| MigrationService.MigrateBatches | api/services/elasticsearch_migration_service.py:115-138 | the batch loop migrates and sends exactly the rows the batches reach, in order |
| MigrationService.MigrateNextBatch | api/services/elasticsearch_migration_service.py:117-138 | reading and migrating one batch extends the statistics and the calls to the next offset |
| MigrationService.MigrateBatch | api/services/elasticsearch_migration_service.py:124-136 | one batch is migrated row by row: the calls are the rows' calls, and the statistics count each row's outcome |
| MigrationService.LaterOffloadWins | api/services/elasticsearch_migration_service.py:377-387 | for each data field, the last offload record of its kind with a file gives its content; a field without one keeps the row's own value |
| MigrationService.OffloadedOk | api/services/elasticsearch_migration_service.py:377-380 | the conversion succeeds exactly when every attached file loads |
| MigrationService.OffloadedErrSticks | api/services/elasticsearch_migration_service.py:377-380 | once a load has failed, later records do not change the outcome |
| MigrationService.NodeDoc | api/services/elasticsearch_migration_service.py:358-416 | a converted document holds no `None` |
| MigrationService.ConvertNodeExecution | api/services/elasticsearch_migration_service.py:358-416 | the conversion loop computes the row's document with its offloaded data loaded, stopping at the first failing load |
| MigrationService.NodeIndexName | api/services/elasticsearch_migration_service.py:323 | a migrated node execution goes to the tenant filter's index when one is given, else the row's tenant's, for the month of the row's creation |
| MigrationService.MigratedAsRepositorySaves | api/services/elasticsearch_migration_service.py:389-416 | a migrated row is written exactly as the node-execution repository would save the execution it stands for: the same document in the same index |
| MigrationService.MigratedNodeReadsBack | api/services/elasticsearch_migration_service.py:389-416 | the node-execution repository reads a migrated row back as the execution it stands for, offloaded data included, when it has metadata |
| MigrationService.Lookups | api/services/elasticsearch_migration_service.py:449-488 | one lookup per sample |
| MigrationService.CheckedCounts | api/services/elasticsearch_migration_service.py:449-488 | each sample moves exactly one counter or adds exactly one message; the total is untouched and earlier messages stay |
| MigrationService.CheckSamples | api/services/elasticsearch_migration_service.py:449-488 | the sample loop sends one lookup per sample, in order, and its tally is what the replies give |
| MigrationService.ValidationOf | api/services/elasticsearch_migration_service.py:431-488 | node-execution counters stay zero; each kind's total is its sample count; every sample is matched, mismatched, missing or an error message |
| MigrationService.MigratedRunMatches | api/services/elasticsearch_migration_service.py:498-505 | a run migrated with its JSON fields present reads back as a copy the comparison accepts |
| MigrationService.MigratedAppLogMatches | api/services/elasticsearch_migration_service.py:507-513 | a migrated app log reads back as a copy the comparison accepts |
| MigrationService.MatchingPartitions | api/services/elasticsearch_migration_service.py:546-593 | the rows a filter counts and the rows a deletion keeps together are the table, as a multiset |
| MigrationService.MatchingSelects | api/services/elasticsearch_migration_service.py:546-593 | the counted rows are all the tenant's rows created before the date, and the kept rows none of them |
| MigrationService.CountIsDeleted | api/services/elasticsearch_migration_service.py:546-595 | a cleanup reports exactly as many rows as it deletes |
| MigrationService.Session.constructor | api/services/elasticsearch_migration_service.py:543 | a new session holds the four tables and has executed nothing |
| MigrationService.Session.Delete | api/services/elasticsearch_migration_service.py:551-554 | a filtered delete removes the matching rows of one table and leaves the other tables as they were |
| MigrationService.Session.Commit | api/services/elasticsearch_migration_service.py:597 | a commit changes no table and is recorded |

## Left out

- Elasticsearch and the database are not modelled as stores. A client is the log of the requests sent plus an oracle that gives each reply or exception. A database query's filters are not modelled: the rows it returns are given as its result.
- Elasticsearch configuration, `ping` and connection setup in `api/extensions/ext_elasticsearch.py` are I/O plumbing. They are modelled only as a process-wide client that may be absent.
- The clock is a parameter: `datetime.utcnow()` and `now` are passed in as an instant.
- Floats are `real` and are not rounded. An execution's elapsed seconds come from a `span` parameter that stands for `(finished - started).total_seconds()`.
- `json.dumps`/`json.loads`, `jsonable_encoder` (its `str` fallback included), `isoformat`/`fromisoformat` and `strftime` are modelled as constructors that keep the value they encode, so that decoding inverts encoding by construction. Only the `YYYY.MM` month label is spelled out. For years below 1000 it is zero-padded to four digits.
- `storage.load` of a file's bytes is an oracle.
- Logging, durations, start and end times, and the elapsed and finished metadata of agent logs are left out.
- The migration service's outer `except` paths ("Migration failed", "Validation failed", "Cleanup failed") are left out, because they only catch what the oracles raise. The one exception modelled there is the database refusing a negative `LIMIT`.
- The language model, the ReAct stream output parser and `ToolEngine.generic_invoke` are oracles: each round's parsed output and each tool's messages are given as sequences.
- Generators are modelled as returned sequences of messages. Suspending and resuming a generator are not modelled.
- `PassportService.verify` (JWT) is an oracle. Flask requests are maps, and a response is a list of cookie records.
- The tool entity and i18n schema of the dispatcher (labels, descriptions, parameter forms) are not modelled, apart from the option list's value and label rule.
- `_extract_content`, `_has_tool_calls`, `_has_tool_calls_streaming`, `_extract_tool_calls`, `_extract_tool_calls_streaming`, `_create_log`, `_finish_log` and `_create_text_chunk` of `api/core/agent/patterns/base.py` (lines 63-101 and 186-242) belong to the other agent strategies or to log bookkeeping, so they are not modelled.
- `set_access_token_to_cookie`, `set_refresh_token_to_cookie`, `set_csrf_token_to_cookie`, `clear_access_token_from_cookie`, `clear_refresh_token_from_cookie`, `clear_csrf_token_from_cookie` and `generate_csrf_token` in `api/libs/token.py` are not modelled. They follow the same cookie shapes as the passport cookie that is modelled.
- The price fields of usage (`input_price`, `output_price`, `total_price`, floats) are not accumulated. Only the token counts are.
- `NodeType` and `WorkflowNodeExecutionStatus` are plain strings. Their enum validation on read-back is not modelled, so any string is accepted.
- The tests under `api/tests/` exercise controllers that are not part of this model.
- WorkflowRecords.ParsedTime: does not state that a truthy value that is not ISO text fails to parse, because that text is not modelled.
- WorkflowRecords.AsReal: does not state the value an integer widens to, only that an integer is accepted.
- EsExecutionRepository.ElapsedTime: is stated in terms of the `span` parameter and not of real clock arithmetic.
- ReAct.Responses: the file dispatcher is called directly on its string-valued arguments, not through `ToolEngine.generic_invoke` as the other tools are, and argument values that are not strings are dropped. So a numeric `file_id` reads as missing ("File ID is required") and a non-string `parameter_name` as absent ("file"), where the dispatcher's own `tool_parameters.get` would see them.
- MigrationService.Batch: the rows are one fixed sequence that every `offset(offset).limit(batch_size)` page slices. The query at `api/services/elasticsearch_migration_service.py:117` has no `order_by`, so the model assumes the database returns the pages from one stable order. ReachedBounds and MigrateBatches rely on that order.
- EsNodeExecutionRepository.NodeRepository: the cache holds execution values. The source stores the entity objects themselves, so a caller that later mutates an entity it saved also changes the cached copy; that aliasing is not modelled.
- RunAdapter.FromWorkflowRun: the members of `WorkflowType` are a parameter, because `core.workflow.enums` is not part of this model.
- The loop rows (ReAct.PlayRound, Settle, PlayNext, Iterate, Step, Stopped, PlayRounds, Run) describe `run` over the corrected `HandleToolCall` of the Findings table. As written, the first call that reaches a found tool raises NameError (ReAct.HandleToolCallAsWritten), so `run` ends there.

## Findings

| source | as written | input that shows it | evidently intended | confidence | as-written member | corrected member |
|---|---|---|---|---|---|---|
| api/core/agent/patterns/react.py:367 | `_handle_tool_call` reads `files`, a local of `run` that is not defined in its own scope, on the path where a tool answers | any tool call that finds its tool and gets the tool's messages back raises `NameError`, so the return at line 379 is never reached | the files collected from the tool's messages are appended to the agent's files and the response is returned | not executed | ReAct.HandleToolCallAsWritten | ReAct.HandleToolCall |
| api/libs/token.py:35 | `scheme, token = auth_header.split(None, 1)` unpacks the split without checking its length | the header `"Bearer "` splits into one piece and raises `ValueError` instead of being rejected | a header without a token is treated as having no token (`None`) | not executed | Token.TryExtractFromHeaderAsWritten | Token.TryExtractFromHeader |
| api/services/elasticsearch_migration_service.py:60 | the client is passed where the run repository's constructor expects a session factory; that constructor ignores it and takes the process-wide client | a service given its own client while no process-wide client is configured fails with "Elasticsearch client is not available. Please check your configuration."; with both configured, runs are written through the other client | every repository of the service uses the client passed to it | not executed | MigrationService.NewMigrationServiceAsWritten | MigrationService.NewMigrationService |
