# MCP clients of the chatbot, modelled in Dafny

The chatbot talks to Model Context Protocol (MCP) servers through several
clients. The model covers each of them.

- **Clients over a child process.** Each starts a server as a child
  process, performs the `initialize` handshake of MCP 2024-11-05 over
  JSON-RPC 2.0 on its stdin/stdout, and hands out request ids from a counter.
  They list tools, call tools and stop the child.
  - The general client (`clients/connection.py`) and the filesystem-plus-git
    client (`mcp_oficial/git_file_client.py`) read up to five lines per
    request and answer the server's `roots/list` requests while waiting.
  - The kitchen, sleep-coach and movies clients read exactly one line per
    request.
- **The HTTP client** (`clients/remote_client.py`) maps tool calls onto the
  endpoints of a remote REST service.
- **The session manager** keeps the conversation history trimmed to its
  newest messages.
- **The interaction loggers** record every MCP call and summarise the
  records.
- **The two language-model clients** turn the history into a prompt or a
  message list.

Modules:

- `Py`: the Python string and sequence operations the clients use: negative
  slices, `in`, `replace`, `rstrip`, `lower`, `str(int)`.
- `Json`: JSON values, truthiness, `.get`, and text built from values.
- `Stdio`: a child process as a class. Its stdout is a fixed script of
  lines read through a cursor. Its stdin is the growing list of messages
  written. Its signals record `terminate`/`kill`.
- `Rpc`: the messages and the exchanges common to the clients:
  - the five-line reply loop, specified by the function `ReplyLoop` and
    implemented by the methods `AwaitReply`/`SendAndSelect`;
  - the single-read exchange;
  - both handshakes;
  - the normalisation of `tools/call` replies.
- `Connection`, `GitFile`, `Kitchen`, `SleepCoach`, `Movies`, `Remote`: one
  class per client, whose methods update the client's fields and the
  processes they own.
- `Session`: the session manager as a class.
- `InteractionLog`: the interaction logger of `tools/logger.py`.
  `ChatbotLog` covers what `chatbot/logger.py` adds: the choice of
  records shown by `show_mcp_interactions`. The rest of `chatbot/logger.py`
  (lines 1-160 and 201-223) repeats `tools/logger.py` line for line, so
  `InteractionLog` models both.
- `Ollama` and `Anthropic`: prompt and message building, specified by
  functions and implemented by loops. `estimate_tokens` in
  `clients/anthropic_client.py` (lines 129-134) uses the same formula as the
  one in `clients/ollama_client.py`, so `Ollama.EstimateTokens` models both.

I/O is a parameter. A process's output is a script, and a spawn is
described by a `Launch` value: whether the script file exists, whether
spawning fails, and whether the child survives the start-up pause. Whether
a child exits within the grace period of `wait()` is a boolean. HTTP replies
and clock readings are arguments.

## Model

| member | source | states |
|---|---|---|
| Py.SliceFrom | tools/session_manager.py:76 | `s[start:]` with Python's negative indices: the result is a suffix of `s` whose length follows the start, counted from the end when negative |
| Py.RStrip | clients/remote_client.py:11 | `rstrip(c)` removes exactly the trailing run of `c`: the result is a prefix not ending in `c`, and every removed character is `c` |
| Py.RStripIdempotent | clients/remote_client.py:11 | stripping a stripped base URL again changes nothing |
| Py.NatToStringRoundTrip | tools/logger.py:113 | the decimal text of a length parses back to that length |
| Py.ReplaceAllAtEnd | clients/remote_client.py:187-190 | replacing a placeholder that sits at the end of a text free of its first character substitutes exactly that placeholder |
| Py.ReplaceAllAbsent | clients/remote_client.py:187-190 | `replace` leaves a text without the pattern unchanged |
| Py.ReplaceAll | clients/remote_client.py:190 | `str.replace`; replacing a pattern by itself changes nothing |
| Py.Lower | clients/movies_client.py:204 | `str.lower()` on ASCII: it maps exactly the letters `A`–`Z` to lower case and keeps every other character |
| Json.Get | clients/connection.py:123 | `dict.get`: the stored value for a present key, `None` for a missing one |
| Json.ScalarText | clients/connection.py:235 | `str()` of None, booleans, integers and strings is known; floats, lists and dicts are the cases left symbolic |
| Json.Returned | clients/connection.py:232 | a returned value is the string itself exactly when it is a string; any other value is kept as the value |
| Json.ShowValue | clients/connection.py:234-236 | an f-string or `str()` of a value: exact text for strings, None, booleans and integers, behind the given prefix; symbolic otherwise |
| Py.NatToStringInjective | tools/logger.py:113 | two lengths with the same decimal text are equal |
| Stdio.LineAt | clients/connection.py:110-113 | reading past everything the child printed gives end of file |
| Stdio.Process.constructor | clients/connection.py:27-32 | a spawned child starts with nothing read, nothing written and no signal |
| Stdio.Process.Write | clients/connection.py:102-105 | a write appends exactly the message to the child's stdin |
| Stdio.Process.ReadLine | clients/connection.py:110-115 | a read returns the next scripted line and advances the cursor by one |
| Stdio.Process.Stop | clients/connection.py:246-255 | `terminate()` always, `kill()` only when the grace period runs out, and the child is no longer running |
| Stdio.Process.Exit | clients/connection.py:246 | a child can exit on its own, after which `returncode is None` is false |
| Rpc.Request | clients/connection.py:192-196 | a request carries `jsonrpc` 2.0, its id and method, and `params` only when given |
| Rpc.Notification | clients/connection.py:85-88 | a notification has no `id` |
| Rpc.InitializeRequest | clients/connection.py:60-77 | the `initialize` request carries its id and names protocol version 2024-11-05 |
| Rpc.InitializedNotification | clients/connection.py:85-88 | `notifications/initialized` is id-less |
| Rpc.ToolCallRequest | clients/connection.py:217-225 | `tools/call` carries the tool's name and arguments |
| Rpc.RootsResponse | clients/connection.py:165-176 | the `roots/list` answer echoes the request's id and lists exactly one root |
| Rpc.KindOfMeaning | clients/connection.py:111-128 | every line is exactly one of: a failed read, a server request, the selected reply, or a message read past |
| Rpc.KindOf | clients/connection.py:110-128 | a failed read is exactly the `ReadFailed` line; a line taken as the reply passes the acceptance test |
| Rpc.Answer | clients/connection.py:160-180 | the handler writes one `roots/list` answer with the request's id, and nothing for any other method |
| Rpc.AnswersInExtend | clients/connection.py:117-120 | the answers written so far, plus the answer to the next line, are the answers up to that line |
| Rpc.ReplyLoopStep | clients/connection.py:109-128 | the reply loop from one line follows from the loop from the next line, as the loop body dictates |
| Rpc.ReplyLoop | clients/connection.py:108-131 | the loop reads at most five lines, at least one, and any reply it returns passes the acceptance test |
| Rpc.ReplyLoopSelection | clients/connection.py:108-131 | at most five lines are read; the loop stops early only at a failed read or at the reply; the reply is the last line read and passes the test; with no reply, no line read passed it |
| Rpc.AnswersOnlyServerRequests | clients/connection.py:118-120 | a line that is not a server request gets nothing written back |
| Rpc.AnswersCarryIds | clients/connection.py:163-167 | every answer written during a read echoes a request id |
| Rpc.RootsListBeforeReply | clients/connection.py:117-124 | a `roots/list` before the reply is answered once with its own id and not taken for the reply |
| Rpc.ForeignResultAccepted | clients/connection.py:126-128 | a `result` with another request's id is accepted as the reply |
| Rpc.GivesUpAfterFiveLines | clients/connection.py:108-131 | five unrelated notifications exhaust the loop: no reply, and the sixth line is left unread |
| Rpc.AnswerServerRequest | clients/connection.py:160-183 | the handler writes the roots answer for `roots/list` and nothing otherwise |
| Rpc.ReadAndAnswer | clients/connection.py:110-120 | one pass reads one line and answers it when it is a server request |
| Rpc.AwaitReply | clients/connection.py:108-131 | the loop's reply, lines consumed and answers written are those `ReplyLoop` specifies |
| Rpc.SendAndSelect | clients/connection.py:99-141 | the request is written first, then the reply `ReplyLoop` selects is returned along with the answers written while waiting |
| Rpc.ReadOne | clients/kitchen_client.py:108-135 | the single-read clients take the next line when it is a message, else no reply |
| Rpc.SendAndReadOne | clients/kitchen_client.py:108-135 | one write, one read, and the reply `ReadOne` gives |
| Rpc.HandshakeSentAppended | clients/connection.py:79-91 | the handshake's writes land after everything already written |
| Rpc.NotificationOnlyAfterAcceptance | clients/connection.py:79-91 | the id-less notification is written exactly when the reply exists and has no `error`, and is written last |
| Rpc.HandshakeAccepted | clients/connection.py:79-82 | an accepted reply exists and has no `error`; a reply with `result` and no `error` is accepted |
| Rpc.HandshakeSent | clients/connection.py:60-91 | the handshake writes the request first, then the answers, then the notification exactly when the reply is accepted |
| Rpc.LoopHandshake | clients/connection.py:56-97 | handshake over the reply loop: success is an accepted reply, and stdin receives the request, the roots answers, and the notification only on success |
| Rpc.SingleReadHandshake | clients/kitchen_client.py:64-106 | handshake over one read: success is an accepted reply, and the notification goes out only then |
| Rpc.HandshakeVerdicts | clients/connection.py:80 | an error reply fails the handshake; a result reply passes it |
| Rpc.ToolsOf | clients/connection.py:200-205 | a reply whose `result` holds `tools` gives exactly those tools; no reply, no `result`, or a `result` without `tools` (the lookup raises) gives `[]` |
| Rpc.ToolReplyPrecedence | clients/connection.py:229-239 | `result` is consulted before `error`; `error` counts only without `result`; no reply or neither key is unexpected |
| Rpc.ClassifyToolReply | clients/connection.py:228-236 | a text outcome is the `text` of the first item of a non-empty `result.content` list; an error outcome is `error.message` |
| Rpc.RenderToolOutcome | clients/connection.py:229-242 | a string text is returned as is; a string error message follows the error prefix; no reply gives the fixed text; the `except` text exactly for a reply whose lookups raise |
| Rpc.ToolCallText | clients/connection.py:211-242 | no reply gives the fixed text; the `except` text appears exactly when a lookup on the reply raises |
| Rpc.ToolCallTextExamples | clients/connection.py:229-242 | a first text item is returned as is; an error gives the error prefix and message; no reply gives the fixed text |
| Rpc.ListedTools | clients/kitchen_client.py:154-180 | `list_tools` returns the reply's tools when their names can be printed, `[]` otherwise |
| Connection.Client.constructor | clients/connection.py:12-15 | no process, not connected, ids start at 1 |
| Connection.Client.Root | clients/connection.py:169-174 | the advertised root is the module's directory under the name `LLM_PROYECTO1` |
| Connection.Client.GetRequestId | clients/connection.py:154-158 | returns the counter and increments it; the id exceeds every id handed out before |
| Connection.Client.IdsNeverRepeat | clients/connection.py:154-158 | no two requests of one client share an id |
| Connection.Client.SendMessage | clients/connection.py:99-141 | the reply, the lines consumed and the writes are those of the reply loop for the message's id |
| Connection.Client.InitializeMcp | clients/connection.py:56-97 | success is an accepted reply to an `initialize` under the next id and `<server>-client`; the notification follows only on success |
| Connection.Client.StartServer | clients/connection.py:17-54 | a script file is looked for except for `git`, `filesystem` and `remote`; success needs a spawn, a surviving child and an accepted handshake; `is_connected` rises only on success; after a spawn the new child has no signals, and it has either nothing written and no id used (it died at once) or the handshake's writes and reads under the next id |
| Connection.Client.ListTools | clients/connection.py:185-209 | without a connection `[]` and nothing written; otherwise one `tools/list` under the next id, the reply loop's reads and answers, and the reply's tools; the child is never signalled |
| Connection.Client.CallTool | clients/connection.py:211-242 | without a connection the fixed refusal; otherwise one `tools/call` under the next id, the reply loop's reads and answers, and the normalised reply text; the child is never signalled |
| Connection.Client.StopServer | clients/connection.py:244-258 | only a running child is signalled, with `kill` only after the grace period; `is_connected` falls only then |
| Connection.RootsThenErrorScenario | clients/connection.py:211-242 | a `roots/list` before an error reply is answered, and the call returns the error text |
| GitFile.RelativePath | mcp_oficial/git_file_client.py:262 | a path that already contains the allowed directory is sent unchanged; any other is sent as `allowed_dir + "/" + path`; either way the result contains the directory |
| GitFile.RelativePathIdempotent | mcp_oficial/git_file_client.py:262 | applying the path rule twice equals applying it once |
| GitFile.WriteFileArguments | mcp_oficial/git_file_client.py:266-274 | `write_file` gets exactly two arguments: the path after the path rule, and the content |
| GitFile.LogArguments | mcp_oficial/git_file_client.py:333-339 | `git_log` asks for the repository and at most 5 entries |
| GitFile.MCPClient.constructor | mcp_oficial/git_file_client.py:11-15 | no processes, ids from 1, the demo workspace as allowed directory |
| GitFile.MCPClient.Root | mcp_oficial/git_file_client.py:66-89 | both servers are told the single root `file://<resolved dir>` named after the allowed directory |
| GitFile.MCPClient.GetRequestId | mcp_oficial/git_file_client.py:17-20 | one counter serves both servers; each id exceeds all earlier ones |
| GitFile.MCPClient.IdsNeverRepeat | mcp_oficial/git_file_client.py:17-20 | ids used with the two servers never clash |
| GitFile.MCPClient.SendMessage | mcp_oficial/git_file_client.py:22-64 | the reply loop on the given process only |
| GitFile.MCPClient.InitializeServer | mcp_oficial/git_file_client.py:100-132 | the handshake over the reply loop on the given process |
| GitFile.MCPClient.StartFsServer | mcp_oficial/git_file_client.py:197-225 | a failed spawn keeps the old process and the counter; otherwise a new unsignalled process, and success iff it survives and its handshake is accepted; a surviving child gets the handshake's writes and reads under the next id, a dead one nothing |
| GitFile.MCPClient.StartGitServer | mcp_oficial/git_file_client.py:227-252 | the same for the git server: the old process kept on a failed spawn, otherwise the new process's handshake writes, reads and id as stated for the filesystem server |
| GitFile.MCPClient.CreateFile | mcp_oficial/git_file_client.py:255-284 | no filesystem server: no reply, no id used; otherwise one `write_file` call with the path rule applied, the reply loop's reads, no signal, and the git server untouched |
| GitFile.MCPClient.Selected | mcp_oficial/git_file_client.py:288 | `"fs"` selects the filesystem server, anything else the git server |
| GitFile.MCPClient.ListTools | mcp_oficial/git_file_client.py:286-300 | `tools/list` goes to the selected server, with the reply loop's reads and no signal, or nothing happens without one |
| GitFile.MCPClient.GitStatus | mcp_oficial/git_file_client.py:303-323 | `git_status` goes to the git server only, with the repository path, the reply loop's reads and no signal |
| GitFile.MCPClient.GitLog | mcp_oficial/git_file_client.py:325-346 | `git_log` goes to the git server only, for at most 5 entries, with the reply loop's reads and no signal |
| GitFile.MCPClient.StopServers | mcp_oficial/git_file_client.py:349-366 | each running process is terminated, and killed after the grace period; others are untouched |
| Kitchen.MoodAndSeasonArguments | clients/kitchen_client.py:217-222 | mood and type always, the type `"recipe"` when the caller gives none; season only when truthy |
| Kitchen.DietArguments | clients/kitchen_client.py:228-233 | the diet always; `maxCalories` exactly when truthy, so 0 is dropped |
| Kitchen.SearchFoodsArguments | clients/kitchen_client.py:243-252 | each criterion exactly when not `None`, so 0 is kept |
| Kitchen.KitchenCoachClient.constructor | clients/kitchen_client.py:13-16 | no process, not connected, ids from 1 |
| Kitchen.KitchenCoachClient.GetRequestId | clients/kitchen_client.py:148-152 | returns the counter and increments it |
| Kitchen.KitchenCoachClient.IdsNeverRepeat | clients/kitchen_client.py:148-152 | no id repeats |
| Kitchen.KitchenCoachClient.InitializeMcp | clients/kitchen_client.py:64-106 | single-read handshake; the notification carries empty params and follows only an accepted reply |
| Kitchen.KitchenCoachClient.StartServer | clients/kitchen_client.py:18-62 | a missing script or failed spawn fails with nothing changed; success iff the child survives and the handshake is accepted; after a spawn the child is unsignalled and holds either nothing (it died at once) or the single-read handshake under the next id |
| Kitchen.KitchenCoachClient.ListTools | clients/kitchen_client.py:154-180 | without a connection `[]`; otherwise `tools/list` with empty params, one read, and the printable tools; the child is never signalled |
| Kitchen.KitchenCoachClient.CallTool | clients/kitchen_client.py:182-213 | without a connection the refusal; otherwise one `tools/call`, one read, the normalised text; the child is never signalled |
| Kitchen.KitchenCoachClient.StopServer | clients/kitchen_client.py:274-288 | a running child is stopped and `is_connected` falls; otherwise nothing changes |
| SleepCoach.WrapperTool | clients/sleep_coach_client.py:208-214 | each wrapper calls its own tool |
| SleepCoach.WrapperArguments | clients/sleep_coach_client.py:208-214 | each wrapper sends exactly its one argument |
| SleepCoach.SleepCoachClient.constructor | clients/sleep_coach_client.py:12-15 | no process, not connected, ids from 1 |
| SleepCoach.SleepCoachClient.GetRequestId | clients/sleep_coach_client.py:141-145 | returns the counter and increments it |
| SleepCoach.SleepCoachClient.IdsNeverRepeat | clients/sleep_coach_client.py:141-145 | no id repeats |
| SleepCoach.SleepCoachClient.InitializeMcp | clients/sleep_coach_client.py:57-99 | single-read handshake with the notification only after an accepted reply |
| SleepCoach.SleepCoachClient.StartServer | clients/sleep_coach_client.py:17-55 | a missing script or failed spawn fails with nothing changed; success iff the child survives and the handshake is accepted; after a spawn the child is unsignalled and holds either nothing (it died at once) or the single-read handshake under the next id |
| SleepCoach.SleepCoachClient.ListTools | clients/sleep_coach_client.py:147-173 | without a connection `[]`; otherwise `tools/list`, one read, the printable tools; the child is never signalled |
| SleepCoach.SleepCoachClient.CallTool | clients/sleep_coach_client.py:175-206 | without a connection the refusal; otherwise one `tools/call`, one read, the normalised text; the child is never signalled |
| SleepCoach.SleepCoachClient.CallWrapper | clients/sleep_coach_client.py:208-214 | a wrapper is `call_tool` with its tool and argument: one write, one read, no signal |
| SleepCoach.SleepCoachClient.StopServer | clients/sleep_coach_client.py:216-230 | a running child is stopped and `is_connected` falls; otherwise nothing changes |
| Movies.ToolArguments | clients/movies_client.py:151-154 | `ping_tool` gets no arguments; any other tool gets `params`, `{}` standing in for `None` |
| Movies.MovieReplyPrecedence | clients/movies_client.py:173-200 | no reply; then a text item; then a content list or value; then an error; anything else is unrecognised |
| Movies.ClassifyMovieReply | clients/movies_client.py:173-200 | a text outcome is the `text` of the first content item; a server error is `error.message`, or the whole error without one |
| Movies.RenderMovieOutcome | clients/movies_client.py:173-200 | no reply names the tool; a string text is returned as is; a string error follows the server-error prefix; a list or dict result is pretty-printed; the `except` text exactly when `error` is not an object |
| Movies.MovieReplyText | clients/movies_client.py:173-200 | no reply or an empty one names the tool; the `except` text only for an `error` that is not an object |
| Movies.AgreesOnTextItems | clients/movies_client.py:173-185 | on a reply whose content starts with a text item, the movies client returns what the general normalisation returns |
| Movies.ServerErrorTexts | clients/movies_client.py:190-196 | an error reply yields the server-error prefix and its message |
| Movies.AsFloat | clients/movies_client.py:252 | a numeric rating becomes a float of the same value |
| Movies.RecommendationParams | clients/movies_client.py:244-260 | limit 15; genres, years and actors (as `include_cast`) copied only when truthy; `min_rating` as a float `min_vote` only when truthy |
| Movies.PopularParams | clients/movies_client.py:262-271 | genres Action, Drama and Thriller, `min_vote` 7.0, years 2015 to 2023, and the given limit or 10 |
| Movies.GenreParams | clients/movies_client.py:273-280 | exactly the genre as a one-element list, `min_vote` 6.0, and the given limit or 15 |
| Movies.PlaylistParams | clients/movies_client.py:292-305 | target minutes always; the preference keys only when preferences are given |
| Movies.MoviesClient.constructor | clients/movies_client.py:11-16 | not active, not initialised, no process, counter 0 |
| Movies.MoviesClient.GetNextId | clients/movies_client.py:21-24 | increments first, so ids start at 1 and grow |
| Movies.MoviesClient.IdsNeverRepeat | clients/movies_client.py:21-24 | ids are positive and never repeat |
| Movies.MoviesClient.Cleanup | clients/movies_client.py:211-227 | the process is stopped if running and dropped; the client is inactive |
| Movies.MoviesClient.InitializeServer | clients/movies_client.py:64-103 | single-read handshake; `_initialized` rises only on an accepted reply |
| Movies.MoviesClient.StartServer | clients/movies_client.py:26-62 | a live client answers true unchanged; a missing script fails with the process, both flags and the counter unchanged; a spawn uses the next id; a failed start or handshake cleans up; on success the new child is unsignalled, has read one line and holds the handshake's writes |
| Movies.MoviesClient.Restart | clients/movies_client.py:204-206 | the old child is stopped if it ran; the client is active and initialised exactly when the relaunch spawns and its handshake is accepted; an id is used only when it spawns; afterwards there is either no process or the relaunched child with the handshake's writes and one line read |
| Movies.MoviesClient.CallTool | clients/movies_client.py:142-209 | an inactive client refuses; a write fault that names a broken pipe or connection cleans up and starts the server once more, which uses a further id only when it spawns and leaves either no process or the relaunched child after its handshake; otherwise one request, one read, no signal, the movie text |
| Movies.MoviesClient.StopServer | clients/movies_client.py:307-310 | stopping is cleaning up |
| Movies.RestartTriggers | clients/movies_client.py:204 | "Broken pipe" and any "connection" restart the server; other faults do not |
| Movies.Restarts | clients/movies_client.py:204 | a fault text containing "Broken pipe" or "connection" restarts the server |
| Remote.ListedToolsHaveEndpoints | clients/remote_client.py:46-175 | the six listed tools are exactly the tools with an endpoint |
| Remote.Stringified | clients/remote_client.py:195-197 | booleans become `"True"`/`"False"`, other values pass through |
| Remote.QueryParams | clients/remote_client.py:193-199 | an argument is forwarded iff it is valid for the endpoint, or any is valid, and is not the query already in the path |
| Remote.EmptyValidForwardsAll | clients/remote_client.py:193-199 | an endpoint without a list of valid parameters forwards every argument |
| Remote.RequestFor | clients/remote_client.py:161-199 | a request exists exactly for a known tool; POST sends the arguments as body, GET sends them as query; a `query` argument for a `{query}` path replaces the placeholder with its text and is not also sent as a parameter |
| Remote.SearchPutsQueryInPath | clients/remote_client.py:185-192 | a search query replaces the `{query}` placeholder and is not also sent as a parameter |
| Remote.SearchUrl | clients/remote_client.py:187-190 | the query takes the place of `{query}` at the end of the search path |
| Remote.SearchWithoutQueryKeepsPlaceholder | clients/remote_client.py:185-192 | without a query the placeholder stays in the path |
| Remote.ReplyText | clients/remote_client.py:201-212 | status 200 gives the body; other statuses and faults give the error texts |
| Remote.Healthy | clients/remote_client.py:35-44 | the server counts as healthy only on status 200, and never when the body is not JSON |
| Remote.RemoteSleepQuotesClient.constructor | clients/remote_client.py:10-13 | the base URL keeps no trailing slash; not connected, no session |
| Remote.RemoteSleepQuotesClient.StartServer | clients/remote_client.py:15-44 | a session is opened; success iff the health check answers 200 with a JSON body |
| Remote.RemoteSleepQuotesClient.ListTools | clients/remote_client.py:46-159 | `[]` when not connected, else the six tools |
| Remote.RemoteSleepQuotesClient.CallEndpoint | clients/remote_client.py:161-215 | refused when not connected; unknown tools named; otherwise the mapped request and the reply's text |
| Remote.RemoteSleepQuotesClient.StopServer | clients/remote_client.py:217-221 | closing an open session disconnects |
| Session.Trimmed | tools/session_manager.py:72-77 | the trimmed history is a suffix of at most N messages, the whole history when it fits, and the whole history for N = 0 |
| Session.NewMessage | tools/session_manager.py:29-37 | a message has role, content, timestamp and id, and every metadata entry overrides them |
| Session.Roles | tools/session_manager.py:95-96 | the role of each message, in order |
| Session.CountRole | tools/session_manager.py:95-96 | the number of messages with the role is at most the history's length, and equal to it exactly when every message has that role |
| Session.CountRoleIsMultiplicity | tools/session_manager.py:95-96 | a role's count is its number of occurrences among the messages' roles |
| Session.CountRolesBound | tools/session_manager.py:95-96 | user plus assistant messages are at most all messages |
| Session.SessionManager.constructor | tools/session_manager.py:8-18 | empty history, counter 0, the given limit |
| Session.SessionManager.TrimContext | tools/session_manager.py:72-77 | the history becomes its trimmed form |
| Session.SessionManager.AddMessage | tools/session_manager.py:20-43 | one message numbered by the counter goes in last; the counter grows by one; the history stays within the limit; a counter that covered the history still does |
| Session.SessionManager.GetContext | tools/session_manager.py:45-55 | one `{role, content}` per message in order, or a raise when a message lacks either |
| Session.SessionManager.ClearContext | tools/session_manager.py:66-70 | empty history, counter 0 |
| Session.SessionManager.GetSessionStats | tools/session_manager.py:79-107 | all zeros for an empty history; a message without a role raises; otherwise the counter, the number of user and of assistant messages, and the history's length |
| Session.SessionManager.LoadSession | tools/session_manager.py:143-172 | success exactly when the file decodes and both its history and its count load; an unreadable file or a rejected history changes nothing; a rejected count leaves the new history in place and the counter as it was; a missing history is empty and a missing count is 0 |
| Session.LoadedHistory | tools/session_manager.py:157 | a missing `conversation_history` defaults to `[]`; a list of objects loads element by element; anything else is rejected |
| Session.LoadedCount | tools/session_manager.py:158 | a missing `session_info` or `total_messages` defaults to 0; an integer count loads as it is; a `session_info` that is not an object raises |
| InteractionLog.TruncationRecordsLength | tools/logger.py:112-113 | the note of a truncated result gives back the original length |
| InteractionLog.Truncated | tools/logger.py:113 | a truncated result is longer than 1000 characters and starts with the first 1000 of the original |
| InteractionLog.Placeholder | tools/logger.py:115-117 | the placeholder names the type and the number of elements |
| InteractionLog.SanitizeResult | tools/logger.py:110-118 | a long string keeps its first 1000 characters and records its length; a long list or dict becomes a placeholder with its size; everything else is unchanged |
| InteractionLog.NewInteraction | tools/logger.py:85-93 | parameters default to `{}`; the sanitised result only on success; the error only on failure |
| InteractionLog.InteractionLogger.constructor | tools/logger.py:31-34 | the log starts with the records already saved |
| InteractionLog.InteractionLogger.LogMcpInteraction | tools/logger.py:72-96 | exactly one record is appended |
| InteractionLog.CountSuccessful | tools/logger.py:167 | at most all records succeed; all of them iff every record succeeded |
| InteractionLog.FirstAppearance | tools/logger.py:171-174 | the dict's keys: each server once, in order of first appearance |
| InteractionLog.Counts | tools/logger.py:171-174 | each server seen, with its number of records |
| InteractionLog.CountsSumToLength | tools/logger.py:171-174 | the per-server counts add up to the number of records |
| InteractionLog.MostUsedIndex | tools/logger.py:182 | the chosen server has the greatest count, and every server before it has a smaller one |
| InteractionLog.CountServers | tools/logger.py:171-174 | the counting loop yields the per-server counts and their key order |
| InteractionLog.InteractionLogger.GetMcpStats | tools/logger.py:161-183 | the three-key empty summary exactly for an empty log; otherwise the summary of the records |
| InteractionLog.ServerSet | tools/logger.py:168 | the distinct servers |
| InteractionLog.StatsOf | tools/logger.py:161-183 | the three-key empty summary exactly for an empty log; otherwise the total is the number of records, the successes are the successful records and the servers used are the log's servers |
| InteractionLog.Summarise | tools/logger.py:166-183 | the total is the number of records; the successes are `CountSuccessful` of the log and the rate their percentage; the counts are the given ones and the most used server is one of them |
| InteractionLog.SuccessRate | tools/logger.py:179 | the rate times the total is the successes times 100, so all successes give 100 |
| InteractionLog.CountSuccessfulIsMultiplicity | tools/logger.py:167 | the success count is the number of `true` outcomes among the records |
| InteractionLog.SummaryFacts | tools/logger.py:161-183 | successes within the total; one count per distinct server; counts adding up to the total; the most used server's count is maximal |
| InteractionLog.MostUsedFirstOnTie | tools/logger.py:182 | every server that appeared before the most used one has a smaller count |
| InteractionLog.ResponsePreview | tools/logger.py:68 | up to 200 characters unchanged, else the first 200 plus `...` |
| InteractionLog.TokenInfo | tools/logger.py:69 | the token part is empty exactly when no count or a count of 0 is given |
| ChatbotLog.Matching | chatbot/logger.py:172-173 | exactly the records of the server, none other |
| ChatbotLog.MatchingAppend | chatbot/logger.py:172-173 | filtering a concatenation filters each part in order |
| ChatbotLog.Filtered | chatbot/logger.py:169-173 | a non-empty filter keeps exactly its server's records, in log order (`Matching`); no filter or an empty one keeps all |
| ChatbotLog.ShownInteractions | chatbot/logger.py:169-176 | a suffix of the filtered records of length `min(limit, count)`, all of them for limit 0 |
| ChatbotLog.ShownMatchFilter | chatbot/logger.py:169-176 | every shown record belongs to the filtered server |
| Ollama.EntryLine | clients/ollama_client.py:112-116 | a user entry gives `Usuario: c` and an assistant entry `Asistente: c`, each ending in a newline; other roles give nothing; a missing role raises |
| Ollama.Lines | clients/ollama_client.py:112-116 | one conversation line per user or assistant entry, each a tagged line |
| Ollama.LinesOfOne | clients/ollama_client.py:112-116 | a single entry contributes its own line, nothing for other roles |
| Ollama.LinesAppend | clients/ollama_client.py:112-116 | the lines of two stretches of history are the lines of the first followed by those of the second |
| Ollama.Recent | clients/ollama_client.py:110 | at most the newest 8 entries |
| Ollama.Prompt | clients/ollama_client.py:94-120 | the prompt is a newline, the lines of the newest eight entries in history order, then the message and the assistant cue |
| Ollama.PromptWithoutHistory | clients/ollama_client.py:106-118 | without history the prompt is the message alone |
| Ollama.PromptWindowBound | clients/ollama_client.py:110-116 | at most 8 conversation lines reach the prompt |
| Ollama.BuildPrompt | clients/ollama_client.py:94-120 | the accumulating loop builds exactly `Prompt` |
| Ollama.EstimateTokens | clients/ollama_client.py:146-151 | a third of the length, rounded down |
| Anthropic.Kept | clients/anthropic_client.py:114-119 | only user and assistant entries survive, each reduced to role and content |
| Anthropic.KeptOfOne | clients/anthropic_client.py:114-119 | a single entry is kept reduced when its role is user or assistant, and dropped otherwise |
| Anthropic.KeptAppend | clients/anthropic_client.py:114-119 | the messages of two stretches of history are those of the first followed by those of the second |
| Anthropic.KeptMembership | clients/anthropic_client.py:114-119 | every message comes from an entry, and every user or assistant entry appears |
| Anthropic.Recent | clients/anthropic_client.py:112 | at most the newest 20 entries |
| Anthropic.Messages | clients/anthropic_client.py:97-127 | at most 21 messages, all user or assistant: the kept newest twenty entries in history order, then the new user message |
| Anthropic.MessagesWithoutHistory | clients/anthropic_client.py:108-127 | without history the request is the new message alone |
| Anthropic.BuildMessages | clients/anthropic_client.py:97-127 | the appending loop builds exactly `Messages` |
| Anthropic.ListAvailableModels | clients/anthropic_client.py:145-154 | five distinct models, the default one among them |
| Anthropic.GetModelInfo | clients/anthropic_client.py:136-143 | the model's name, provider, token limit and temperature |

## Left out

- Real I/O is not modelled: subprocess spawning, pipes, HTTP sessions, files
  and clocks. The outcomes the model covers are parameters: a spawn's
  outcome, the lines a child prints, the health check's answer and the
  movies client's `call_tool` write fault. Every other write succeeds.
- Printed console messages and `logging` output are left out. They do not
  affect any returned value.
- The `stderr` read after an early exit, and the `asyncio.sleep` pauses, are
  left out; they are not observable in the model.
- Non-object JSON lines from a server, such as a bare number or list, are not
  modelled. A line is either a failed read or an object.
- Python's `str()` and `json.dumps` of floats, lists and dicts are kept
  symbolic in `Json.Text` rather than spelled out.
- `create_git_repo_native` and `git_add_commit_native` in
  `mcp_oficial/git_file_client.py` (lines 135-194) are left out: they run
  `git` as a subprocess and only print.
- `mkdir` of the allowed directory in `start_fs_server` is left out: it is
  file-system I/O.
- `_send_notification` write failures, which the source only prints, are not
  modelled. Writes always succeed, except the request write of the movies
  client's `call_tool`.
- Movies.MoviesClient.InitializeServer and Movies.MoviesClient.StartServer:
  the handshake writes of `_initialize_server` (clients/movies_client.py:83,
  96) always succeed. So a failed write never sends `_initialize_server` to
  its `except` branch (lines 101-103). A handshake still fails, and
  `start_server` still cleans up, when the reply is missing or carries an
  error.
- Movies.MoviesClient.CallTool: a write failure is the `writeFault`
  parameter. Faults during the read are not modelled separately.
- Movies.RecommendationParams: `float(min_rating)` is exact only for numeric
  values. A string rating, which Python would parse or reject, passes through
  unchanged.
- `test_ping`, `search_movies`, `get_movie_details`, `get_actor_filmography`
  and `find_similar_movies` in `clients/movies_client.py` (lines 230-290) are
  `call_tool` with fixed arguments, so they are covered by
  `Movies.MoviesClient.CallTool`. `stop_client` (lines 312-320) only
  schedules `stop_server` on an event loop.
- The fixed-argument wrappers of `clients/kitchen_client.py` (lines 224-272)
  are `call_tool` with constant arguments, covered by
  `Kitchen.KitchenCoachClient.CallTool`.
- Kitchen.KitchenCoachClient.StopServer and
  SleepCoach.SleepCoachClient.StopServer: as in the code, a child that
  already exited leaves `is_connected` as it was. A child exits on its own
  through `Stdio.Process.Exit`. The model does not say when that happens:
  it is a step any caller may take between the clients' operations.
- Remote.RemoteSleepQuotesClient.StartServer: the health response's JSON
  body is a parameter. The source requires it to parse.
- `get_full_history` in `tools/session_manager.py` returns a copy of the
  history. In a value model the copy is the history itself, so it has no
  member.
- `save_session` and `show_context_summary` in `tools/session_manager.py`
  only write a file or print.
- Session.LoadedHistory: rejects a `conversation_history` that is not a list
  of objects, which Python would store. See the LoadSession line below.
- Session.LoadedCount: rejects a `total_messages` that is not an integer,
  which Python would store. See the LoadSession line below.
- Session.SessionManager.LoadSession: the model returns false for two kinds
  of file that Python would store anyway:
  - a `conversation_history` that is not a list of objects. Both fields
    stay as they were.
  - a `total_messages` that is not an integer. The new history is already
    in place and the counter stays as it was.
  A `session_info` that is not an object also returns false with the new
  history in place. That matches Python, which raises after assigning the
  history.
- The session duration is not modelled: it depends on the clock.
- InteractionLog.SanitizeResult: the length of the JSON text of a list or
  dict is the `dumpedLength` parameter. `json.dumps` formatting is not
  spelled out.
- InteractionLog.InteractionLogger.GetMcpStats: the success rate is an exact
  real, not a float, and `servers_used` is a set because Python's list of a
  set has no defined order.
- `_load_mcp_interactions` and `_save_mcp_interactions`: loading and saving
  the JSON file is file I/O. The records loaded are the constructor's
  argument.
- The log text of `log_mcp_interaction`, `log_user_input` and
  `show_interaction_log`, and the printing in `show_mcp_interactions`, are
  left out because they are console or file output. The line text needs
  `str()` of arbitrary results.
- Ollama.BuildPrompt: a history entry whose content is a float, list or
  dict gives no prompt, because `str()` of those is not spelled out.
- `send_message`, `check_connection`, `is_model_available`,
  `list_available_models` and `get_model_info` in
  `clients/ollama_client.py` are HTTP calls. `send_message` and
  `_test_connection` in `clients/anthropic_client.py` are API calls.
