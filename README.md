# aichatbot core in Dafny

A model of the core of a Telegram chat bot that forwards a user's message to
an OpenAI-compatible chat-completion API, lets the model call tools offered
by MCP (Model Context Protocol) servers, and keeps a per-chat history. The
model covers:

- the **MCP server manager** (`McpManager`): the enabled server configs, the
  tool-name→server cache with its TTL, the cached tool list in
  function-calling format, the session pool with its idle TTL, tool lookup
  (cache first, then a search over all servers), tool execution with
  timeout and error handling, and the loader of `mcp.json`;
- the **tool-calling loop** (`ToolExecutor`): bounded rounds of "append the
  assistant message with the calls, run each call, append one tool message
  per call, resubmit";
- **message processing** (`Processor`): model choice, history trimming, the
  system prompt, the optional image turn, offered tools, the retry after a
  `BadRequestError` with a cleared history, the tool loop and the saved
  history;
- the utilities: the per-chat **rate limiter** (`RateLimiter`), **message
  chunking** for the platform's length limit (`Messaging`), **HTML and
  MarkdownV2 escaping** (`Formatters`), **username validation**
  (`Validators`), the **user registry** and **access control**
  (`UserManager`, `AccessControl`), **user settings** (`UserSettings`) and
  the **model listing** (`ModelManager`).

Shared vocabulary lives in `Wrappers` (Option/Result), `Json` (JSON values,
Python truthiness, `dict.get` over members, `json.dumps` of a string) and
`Chat` (messages, tool calls, API requests and replies).

External effects are parameters: the MCP servers are the `Servers` oracle
(connect, list tools, call a tool, per server name), the LLM API is a
function from (call index, request) to a reply or an exception, JSON parsing
of tool arguments is a function, time is the integer `now` of an operation,
and the S3-backed stores are maps held by small classes (`ChatHistories`,
`SettingsStore`, `UserRegistry`, `Limiter`). Objects the source mutates in
place are classes whose methods state their whole new state; each such
method is specified by a function on values (`Acquire`, `RefreshFrom`,
`SearchFrom`, `Dispatch`, `Execute`, `Check`, `Asking`, …) about which the
properties are proved.

## Model

| member | source | states |
|---|---|---|
| McpManager.ServerManager.constructor | mcp_manager.py:37-55 | keeps exactly the enabled configs in order, empty caches and pool, stamp 0, and the TTL given or 300 when none is given |
| McpManager.Enabled | mcp_manager.py:38 | a config is kept iff it was given and is enabled; no config is invented |
| McpManager.ServerManager.IsCacheValid | mcp_manager.py:196-201 | an empty tool cache is never valid; otherwise valid iff less than the TTL has passed since the stamp |
| McpManager.Acquire | mcp_manager.py:58-109 | a session younger than 300 s is reused and never fails; success records `now` as last use; any failure leaves the server out of the pool; only stdio is accepted, with the source's message |
| McpManager.ServerManager.GetOrCreateSession | mcp_manager.py:58-109 | the pool and error after the call are those of `Acquire` on the old pool |
| McpManager.ServerManager.CloseSession | mcp_manager.py:111-124 | the named session is removed and every other one kept, whether or not closing it failed |
| McpManager.ServerManager.CloseAllSessions | mcp_manager.py:126-129 | the pool is empty afterwards |
| McpManager.FormatTool | mcp_manager.py:169-177 | the function-calling entry keeps the tool's name, is tagged with its server, and has the tool's description or the non-empty default |
| McpManager.Format | mcp_manager.py:168-178 | one entry per listed tool, in listing order |
| McpManager.RefreshStep | mcp_manager.py:163-187 | for one server: on success its tools are appended and cached and its session kept; on failure the list and cache are unchanged and its session closed; other sessions untouched |
| McpManager.RefreshFrom | mcp_manager.py:162-187 | the refresh only appends to the tool list, and every appended entry has a description and comes from a server of the remaining configs |
| McpManager.RefreshOverlays | mcp_manager.py:178-181 | after a refresh each listed tool name maps to the server of its last entry and every other name keeps its old cache entry |
| McpManager.RefreshKeepsStaleEntries | mcp_manager.py:158-191 | a full refresh never removes a cache entry: the new cache is the old one overwritten by the new list |
| McpManager.ServerManager.RefreshAll | mcp_manager.py:162-187 | the loop over the configs leaves the list, cache and pool that `RefreshFrom` computes |
| McpManager.ServerManager.RefreshServer | mcp_manager.py:163-187 | one loop iteration leaves the list, cache and pool that `RefreshStep` computes |
| McpManager.ServerManager.GetAllTools | mcp_manager.py:151-194 | a valid cache with a non-empty list returns that list and changes nothing; otherwise the refreshed list is returned and cached with stamp `now`; the tools and the new state are `AllTools` of the old state |
| McpManager.AllTools | mcp_manager.py:151-194 | the list served: the cached list, state unchanged, when the cache is valid and the list non-empty; otherwise the fold of the refresh over all configs from an empty list, stamped `now`, and that list becomes the cached one |
| McpManager.AllToolsCached | mcp_manager.py:153-156 | with a positive TTL, asking again at the same time after an answer that left a non-empty cache and list returns the same tools and changes nothing |
| McpManager.FirstNamed | mcp_manager.py:230 | `None` iff no config has the name; otherwise the first config with that name |
| McpManager.ServerManager.GetConfigFromCache | mcp_manager.py:221-237 | no lookup without a valid cache entry; a cached server that is no longer configured is evicted and gives `None` |
| McpManager.SearchFrom | mcp_manager.py:243-264 | the first server that connects and lists the tool is chosen and its session stamped `now`; none before it qualifies; `None` means no server qualifies |
| McpManager.ServerManager.FindServerWithTool | mcp_manager.py:239-264 | the pool and choice are those of `SearchFrom`; a found server is recorded for the tool in the cache, otherwise the cache is unchanged |
| McpManager.ExtractResultContent | mcp_manager.py:316-325 | the first content item's text when it has one, its rendering when it has none, and the result's rendering when there is no content |
| McpManager.Dispatch | mcp_manager.py:266-314 | success returns the extracted content and keeps the cache; any failure closes the session; a timeout keeps the cache entry, any other failure evicts the tool |
| McpManager.ServerManager.ExecuteToolOnServer | mcp_manager.py:266-314 | the result, pool and cache are those of `Dispatch` |
| McpManager.Execute | mcp_manager.py:203-219 | a usable cache entry decides the server; on a miss the chosen server is the first one `SearchFrom` finds connecting and listing the tool; "not found" iff no server was chosen, and then no reachable server lists the tool; success stamps the session and leaves the tool cached to the server that ran it |
| McpManager.ServerManager.ExecuteTool | mcp_manager.py:203-219 | the result, pool and cache are those of `Execute` on the old state |
| McpManager.ServerManager.GetServerStatus | mcp_manager.py:327-332 | one entry per configured server name, each "configured" |
| McpManager.ServerManager.IsConfigured | mcp_manager.py:334-336 | true iff some server is configured |
| McpManager.Loaded | mcp_manager.py:352-375 | at most one config per entry, each an enabled stdio server |
| McpManager.ConfigOf | mcp_manager.py:360-371 | a kept entry becomes a stdio config with its own name, its command or "npx", its args or `[]`, its env, enabled |
| McpManager.FirstBad | mcp_manager.py:354-380 | the entries before it are objects and the one at it is not: the first entry whose `.get` raises |
| McpManager.LoadedSingle | mcp_manager.py:355-371 | one entry gives its config iff `enabled` is absent or truthy, and nothing otherwise |
| McpManager.LoadedAppend | mcp_manager.py:354-371 | loading object entries followed by more entries is loading each part, one after the other: document order is kept |
| McpManager.LoadedStops | mcp_manager.py:354-380 | nothing after a non-object entry is loaded: the raised error ends the loop and the configs so far are returned |
| McpManager.LoadedMembers | mcp_manager.py:354-380 | a config is loaded iff some entry before the first non-object entry is kept (enabled absent or truthy) and becomes it: disabled servers are exactly the ones skipped |
| McpManager.LoadedKeepsOrder | mcp_manager.py:354-371 | when every entry is an enabled object, every entry becomes a config, in order, with its command, args and env or their defaults |
| McpManager.LoadMcpConfigsFromJson | mcp_manager.py:339-382 | a missing or unparsable file yields no configs; otherwise the configs `Loaded` keeps from `mcpServers`, or none when it is absent |
| Json.EscapeString | ai/tool_executor.py:162 | `json.dumps` output is printable ASCII and no shorter than its input |
| Json.Quote | ai/tool_executor.py:162 | the dumped string is printable ASCII and enclosed in double quotes |
| Json.EscapeStringIdentity | ai/tool_executor.py:162 | printable text without quotes or backslashes dumps unchanged |
| Json.UnescapeRoundTrip | ai/tool_executor.py:162 | reading the dumped text of any string back gives that string, escapes and surrogate pairs included (`json.loads(json.dumps(s)) == s`) |
| Json.UnquoteRoundTrip | ai/tool_executor.py:162 | a quoted string reads back to the string it quotes |
| ToolExecutor.ResultContent | ai/tool_executor.py:160-166 | a string result is kept as is; an error becomes exactly `{"error": ` then its message quoted as `json.dumps` does, then `}`, and the message reads back from it |
| ToolExecutor.CallValue | ai/tool_executor.py:102-125 | a call raises iff its arguments do not parse, with that parse error and nothing changed; without a manager nothing changes; otherwise the value and pool come from the manager's `Execute` |
| ToolExecutor.AddToolCallToHistory | ai/tool_executor.py:127-149 | exactly one assistant message carrying the reply's content and calls is appended |
| ToolExecutor.AddToolResultToHistory | ai/tool_executor.py:151-173 | exactly one tool message with the call's id, name and result content is appended |
| ToolExecutor.ExecuteSingleToolCall | ai/tool_executor.py:102-125 | unparsable arguments raise before the manager is touched; otherwise the manager's `Execute` result is the tool text, or any failure becomes the error dict with its message; value and new pool are `CallValue` of the old manager |
| ToolExecutor.RunCall | ai/tool_executor.py:63-65 | the appended tool message carries exactly the value the call produced (`CallValue` of the old manager), or the call raises and nothing is appended |
| ToolExecutor.RunCallsRaised | ai/tool_executor.py:63-65 | the calls of a round run until the first one whose arguments do not parse, which raises with that parse error; every call completes iff all arguments parse |
| ToolExecutor.NextCall | ai/tool_executor.py:63-65 | one pass of the inner loop: either the round raises here with the parse error, or one more tool message with the call's value is recorded |
| ToolExecutor.RunRound | ai/tool_executor.py:60-65 | the values, the raise and the manager's new pool are those of running the reply's calls in order from the old pool; the history gains the call message then one tool message per value, carrying that value; a raise stops at the first unparsable call |
| ToolExecutor.TracedRound | ai/tool_executor.py:52-65 | one round extends the recorded run: the history grows by exactly that round's messages and the raise is the round's |
| ToolExecutor.Iterate | ai/tool_executor.py:52-85 | one pass of the loop either ends it as a raise or an API error, or continues with the API's answer to the history so far |
| ToolExecutor.FlattenSnoc | ai/tool_executor.py:60-65 | appending a round's messages to the history extends the concatenation of rounds |
| ToolExecutor.RoundsLength | ai/tool_executor.py:60-65 | the loop appends one message per round plus one per tool call |
| ToolExecutor.ExtendRan | ai/tool_executor.py:52-85 | a round whose reply answered the previous resubmission extends a consistent run |
| ToolExecutor.LastAnswer | ai/tool_executor.py:67-80 | each resubmission sends the history as it stands after that round |
| ToolExecutor.FinalText | ai/tool_executor.py:95-98 | the final text is never empty and is the reply's content whenever that is non-empty |
| ToolExecutor.ExecuteToolLoop | ai/tool_executor.py:35-100 | at most `max_iterations` rounds, none without calls; each reply is the API's answer to the history so far; each round's tool messages carry the values its calls produced against the manager, whose pool is threaded through the rounds; the history grows by exactly the rounds' messages; malformed arguments raise; the flag is "rounds ≥ cap"; before the cap the loop ends only without calls or after an API error |
| Processor.ChatHistories.Save | storage/chat_history.py:17-19 | only that chat's history is replaced |
| Processor.ChatHistories.Clear | storage/chat_history.py:22-24 | only that chat's history becomes empty |
| Processor.TrimHistory | ai/processor.py:38-41 | the result is the last min(n, 50) messages |
| Processor.TrimIdempotent | ai/processor.py:38-41 | trimming twice is trimming once; a short history is kept whole |
| Processor.UserTurn | ai/processor.py:57-72 | a text turn without an image; with one, the text plus a `data:image/jpeg;base64,` URL |
| Processor.ModelFor | ai/processor.py:24-28 | the vision model with an image, else the user's setting or its default |
| Processor.MaxTokensFor | ai/processor.py:32 | a token limit of 4000 exactly when there is an image |
| Processor.Conversation | ai/processor.py:35-72 | the system prompt first, the trimmed history, the user turn last; at most 52 messages |
| Processor.Persisted | ai/processor.py:47-48 | the saved history is the trimmed history plus the text-only user turn and the reply; at most 52 messages |
| Processor.PersistedTextOnly | ai/processor.py:47-48 | a text-only history stays text-only when the turn is saved: no image or system message is ever stored |
| Processor.ContentOr | ai/processor.py:130 | the reply text is never empty and is the content when that is non-empty |
| Processor.FirstAnswered | ai/processor.py:95-114 | the first retry the API answers, and all earlier ones raised; `None` iff all raised |
| Processor.Asking | ai/processor.py:84-118 | a first answer is used; a non-`BadRequestError` is re-raised; after a `BadRequestError` the first answered retry wins, or the bot gives up when both retries raise |
| Processor.Ask | ai/processor.py:84-118 | the retry loop's outcome is `Asking`, and the chat's stored history is cleared iff a retry happened |
| Processor.RespondAsWritten | ai/processor.py:121-130 | a reply without calls gives its content; a reply with calls raises |
| Processor.ToolCallReplyRaises | ai/processor.py:125-127 | a single tool call in the first reply makes the un-awaited loop raise |
| Processor.LoopReply | ai/processor.py:125-127 | the loop's answer is the reply text, and its exception is raised |
| Processor.Respond | ai/processor.py:121-130 | without calls the content and the manager untouched; with calls the reply is the tool loop's answer or exception, from a run of at most 5 rounds on the conversation, resubmitting from API call `next` with the same model, limit and tools |
| Processor.OfferedTools | ai/processor.py:75-82 | with a manager and a truthy MCP setting the tools offered and the manager's new state are `AllTools` of its old state; otherwise no tools and the manager unchanged |
| Processor.Conclude | ai/processor.py:121-142 | an answer without calls yields its content; with calls the outcome is the tool loop's, resubmitting from the API call after the one that answered; a reply is persisted as the trimmed history plus the turn; giving up or raising stores nothing more |
| Processor.AskWithTools | ai/processor.py:24-118 | the tools are listed as `AllTools` says, then the turn is asked as `Asking` says with those tools, clearing the chat's history iff a retry happened |
| Processor.ProcessTextMessage | ai/processor.py:18-142 | the tools are `get_all_tools`' list; the API sees the assembled conversation first and the bare retry conversation on retries; errors are re-raised; exhausted retries return the apology with the history cleared; with calls the reply is the tool loop's, run on the full conversation from the listed manager; a reply is non-empty and saved after the trimmed history; without a reply the history is cleared iff a retry happened, else unchanged |
| RateLimiter.Prune | utils/rate_limiter.py:24-28 | exactly the timestamps younger than the window are kept, each as many times as it occurs |
| RateLimiter.PruneAppend | utils/rate_limiter.py:24-28 | pruning a concatenation is concatenating the pruned parts, so the kept timestamps keep their order |
| RateLimiter.PruneSorted | utils/rate_limiter.py:24-28 | pruning keeps the list in time order |
| RateLimiter.Check | utils/rate_limiter.py:30-43 | allowed iff fewer than 10 recent requests; allowed records `now` with wait 0; refused keeps the list and reports the time until the oldest expires |
| RateLimiter.CheckKeepsWellFormed | utils/rate_limiter.py:13-43 | with nondecreasing `now` the list stays sorted, at most 10 long and in the past; the wait is between 1 and 60 seconds when refused |
| RateLimiter.Limiter.CheckRateLimit | utils/rate_limiter.py:13-43 | only the chat's list changes, to what `Check` keeps, and the answer is `Check`'s |
| Messaging.SplitLines | utils/messaging.py:26 | at least one line, none containing a newline |
| Messaging.JoinSplitLines | utils/messaging.py:26 | joining the split lines with newlines gives back the text |
| Messaging.ChunkLines | utils/messaging.py:23-38 | no empty chunk; each chunk fits the 4000 limit or is a single over-long line; without empty lines the chunks rejoin to the text |
| Messaging.SplitIntoChunks | utils/messaging.py:23-38 | the chunk properties hold for the lines of the text, and rejoining gives back the text when it has no empty line |
| Messaging.SendLongMessage | utils/messaging.py:10-45 | short text goes out whole; long text goes out as chunks in order, only the first replying to the user, each in the given parse mode |
| ModelManager.IdsOfContains | models/model_manager.py:28-32 | every listed model appears under its owner |
| ModelManager.IdsOfSound | models/model_manager.py:28-32 | every id under an owner comes from a listed model of that owner |
| ModelManager.OwnersExactly | models/model_manager.py:28-34 | the owners are exactly those of listed models |
| ModelManager.GroupByOwner | models/model_manager.py:26-34 | keys are exactly the owners of models with an id; each maps to its ids in response order, never empty |
| ModelManager.FetchModels | models/model_manager.py:10-42 | a failed fetch gives the fixed fallback list; otherwise the grouping of the response's `data` |
| Formatters.HtmlEscape | utils/formatters.py:13 | no `<`, `>`, `"` or `'` survives and nothing is shortened |
| Formatters.HtmlEscapeAppend | utils/formatters.py:13 | escaping a concatenation is concatenating the escaped parts |
| Formatters.HtmlEscapeChar | utils/formatters.py:13 | a single character becomes its entity when special, else itself |
| Formatters.EscapeHtml | utils/formatters.py:9-13 | no text gives ""; other text gives its `html.escape`, which reads back to the text |
| Formatters.HtmlRoundTrip | utils/formatters.py:13 | unescaping the escaped text gives the text back |
| Formatters.HtmlAmpersandsOpenEntities | utils/formatters.py:13 | an `&` in the output implies the input had a special character |
| Formatters.EscapeMarkdownV2 | utils/formatters.py:105-108 | the output grows by exactly one backslash per special character |
| Formatters.MarkdownAppend | utils/formatters.py:105-108 | escaping a concatenation is concatenating the escaped parts |
| Formatters.MarkdownChar | utils/formatters.py:107-108 | a special character gains one backslash in front; any other stays as it is |
| Formatters.MarkdownPosition | utils/formatters.py:105-108 | character `i` lands after the backslashes of the specials before it, preceded by a backslash exactly when it is special |
| Formatters.MarkdownRoundTrip | utils/formatters.py:105-108 | removing the escaping backslashes gives the text back |
| Formatters.MarkdownPlainUnchanged | utils/formatters.py:105-108 | text without special characters is unchanged |
| Formatters.EscapedHasMoreSpecials | utils/formatters.py:105-108 | escaping at least doubles the number of special characters |
| Formatters.NotIdempotent | utils/formatters.py:105-108 | escaping twice differs from escaping once whenever there is a special character |
| Validators.ValidateUsername | auth/validators.py:8-28 | accepted names are 5 to 32 characters, start with a letter or `_`, and are word characters except possibly one final newline |
| Validators.ValidateUsernameCharacterized | auth/validators.py:18-26 | accepted iff the length is in range and the text, less one optional final newline, matches the pattern |
| Validators.TrailingNewlineAccepted | auth/validators.py:25 | `"abcd\n"` is accepted though `"abcd"` is not |
| UserManager.Lower | auth/user_manager.py:35 | character-wise ASCII lowercasing of the same length |
| UserManager.LowerIdempotent | auth/user_manager.py:35 | lowercasing twice is lowercasing once |
| UserManager.StatusOf | auth/user_manager.py:71-84 | no name is denied, the admin is approved, any other name gets its stored status or `None` |
| UserManager.UserRegistry.RegisterUser | auth/user_manager.py:29-68 | an invalid name is rejected and nothing is stored; a known name returns its status; a new one is stored as pending under its lowercase key |
| UserManager.UserRegistry.GetUserStatus | auth/user_manager.py:71-84 | the status is `StatusOf` the registry |
| UserManager.UserRegistry.SetUserStatus | auth/user_manager.py:87-101 | changes iff the name is non-empty and registered; then only that user's status changes |
| UserManager.RegisterThenApprove | auth/user_manager.py:29-101 | a newly registered user reads as pending, and as approved once the admin approves |
| UserManager.StatusIgnoresCase | auth/user_manager.py:71-84 | names equal up to case have the same status |
| AccessControl.IsAdmin | auth/access_control.py:27-30 | true iff the name is non-empty and equals the admin's up to case |
| AccessControl.IsAuthorized | auth/access_control.py:9-24 | the admin passes without registering; an invalid name is refused; anyone else is registered and passes iff approved |
| UserSettings.ChatKeyInjective | storage/user_settings.py:12-19 | different chat ids never share a settings key |
| UserSettings.KeySign | storage/user_settings.py:14 | the key starts with `-` iff the chat id is negative |
| UserSettings.GetUserModel | storage/user_settings.py:22-25 | the stored model, or "glm-4.7" |
| UserSettings.ShouldUseMcp | storage/user_settings.py:35-38 | the stored flag, or true |
| UserSettings.GetSystemPrompt | storage/user_settings.py:48-51 | the stored prompt, or null |
| UserSettings.WithSetting | storage/user_settings.py:28-32 | one key of one chat is set and the set of chats only grows by that chat |
| UserSettings.SettingsStore.SetUserModel | storage/user_settings.py:28-32 | the store becomes `WithSetting` of the model |
| UserSettings.SettingsStore.SetMcpForUser | storage/user_settings.py:41-45 | the store becomes `WithSetting` of the flag |
| UserSettings.SettingsStore.SetUserSystemPrompt | storage/user_settings.py:54-58 | the store becomes `WithSetting` of the prompt |
| UserSettings.SettingsStore.ResetUserSystemPrompt | storage/user_settings.py:61-68 | true iff a prompt was stored; then only that key is removed, otherwise nothing changes |
| UserSettings.GetAfterSet | storage/user_settings.py:22-58 | each getter returns what its setter stored last |
| UserSettings.SetPreservesOthers | storage/user_settings.py:28-58 | setting one key of one chat leaves other keys and other chats unchanged |
| UserSettings.ResetRestoresDefault | storage/user_settings.py:48-68 | after a reset the prompt reads as null again |

## Left out

- Logging, the S3 persistence layer, the Telegram bot object and the OpenAI client are not modelled; their effects appear as maps, oracle functions and returned message lists.
- Async execution, event loops and concurrent access are not modelled: each operation runs to completion with one integer `now`, and the several `time.time()` calls inside one operation read that same `now`.
- Session handles, the stdio and session context managers, and `connect_to_server` are left out: the pool records only which servers hold a session and when each was last used.
- McpManager.Loaded: the `mcpServers` entries come from a decoded JSON object, so their names are distinct; duplicate keys in the file (where the last one wins) are not modelled.
- Json.Unescape: only the inside of a JSON string literal is read back; the full JSON parser is the parameter `parse`.
- `load_mcp_configs_from_env` and the `MCPServerConfig` fields other than name, transport, command, args, url, env and enabled are not part of this model.
- McpManager.ExtractResultContent: the `str(result.content)` branch is unreachable (an empty or missing content list falls to the last return), so it has no separate case.
- McpManager.GetConfigFromCache: as in the code, a cached server is not re-checked for still offering the tool.
- McpManager.ServerManager.GetAllTools: `tool.inputSchema` is an optional JSON value; a tool without one gets `{}`.
- Processor.OfferedTools: the source runs `get_all_tools` through a helper that calls `asyncio.run`, which raises inside the bot's running event loop, so the source would fall back to no tools; the model follows the evident synchronous intent, and in the model `get_all_tools` never raises.
- Processor.ProcessTextMessage: the `for ... else` branch at ai/processor.py:115-116 runs only when the retry count is 0; with the configured 2 it is unreachable and is not modelled.
- Processor.ProcessTextMessage: the history cleared by a retry is later overwritten by the save, as in the code. After the tool loop the manager is stated through its stamp and its pool; its cached tool list is framed, not stated.
- Processor.UserTurn: base64 encoding of the image is not modelled; the encoded text is an input.
- Messaging.SendLongMessage: `markdown_to_html` is not modelled; it is the parameter `render`.
- ToolExecutor.ExecuteSingleToolCall: `json.loads` is outside the `try`, so malformed arguments abort the whole loop (as the code does); JSON parsing itself is the parameter `parse`.
- ToolExecutor.ResultContent: the `str(result)` branch for results that are neither strings nor dicts does not arise, since `execute_tool` returns text.
- UserManager.Lower: lowercasing is ASCII-only; Python's Unicode case mapping is not modelled.
- UserManager.UserRegistry.RegisterUser: the registration time is the parameter `firstSeen`; the admin notification message is not modelled.
- RateLimiter: timestamps are integers, whereas the source reads `time.time()` as a float; with integer times `int()` of the wait changes nothing.
- RateLimiter.CheckKeepsWellFormed: the wait of at least 1 second holds only for integer times; with the source's float times a refusal at 59.5 seconds after the oldest request reports `int(0.5) == 0`.
- ModelManager.FetchModels: entries whose `owned_by` is null or that are not objects are not modelled; a missing `owned_by` reads as "unknown".
- Formatters: `markdown_to_html` is not part of this model.

## Findings

| source | as written | input that shows it | evidently intended | confidence | as-written member | corrected member |
|---|---|---|---|---|---|---|
| ai/processor.py:125-127 | `execute_tool_loop` is a coroutine function called without `await`, and its result is unpacked into two names, which raises `TypeError` | any first API reply with a non-empty `tool_calls` list | run the loop to completion and use its final text and flag | high, not executed | Processor.RespondAsWritten, Processor.ToolCallReplyRaises | Processor.Respond |
