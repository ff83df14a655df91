# rishi daemon API core in Dafny

A model of the decision and state logic of the rishi daemon's `api` package: the
local HTTP service that sits between a browser frontend, the Anthropic message API,
an R session's tool server (over HTTP and over a WebSocket), and a config file.

What is modelled:

- **WebSocket registry and RPC correlation** (`WebSocket`). A `Manager` class holds the
  connection registry (`connections`, name to `Connection`) and the correlation table
  (`pending`, request id to a single-slot sink). A `Connection` class holds a bounded
  outbound queue of capacity 256 and the client name its handshake set. Methods model:
  - the upgrade's bearer-token check;
  - registration, removal and per-client sends;
  - the tool-request round trip: register, send, roll back on failure, wait, clean up;
  - the response handler, the read loop's frame dispatch, and its teardown.
- **Chat orchestration** (`Chat`):
  - request checks, then history assembly, then model, token-limit and tool selection;
  - the agentic loop against a scripted provider. Each turn streams text, reports
    errors, runs each text-editor tool call in order, and appends calls and results to
    the history. The loop streams again until a turn makes no tool call.
  - What is streamed to the frontend is a sequence of `Event` values.
- **Tool-command layer**:
  - `TextEditorTool`: the command names, the status/body outcome of a tool request, and
    the wrappers that turn every failure into an `Error` string.
  - `ConsoleTool`: the console-exec wrapper.
  - `Tools`: the RStudio RPC reads and listings, the response interpretation and the
    directory-name heuristic.
- **Input validation** (`Utils`, `MiscHandlers`):
  - image content checks, with base64 validity per section 4 of RFC 4648;
  - inbound content conversion;
  - the tool-call event lines and their error flag;
  - the API-key handlers.
- **Config** (`Config`):
  - config directory and path resolution as a function of the OS and the environment;
  - loading from an abstract file store;
  - a `FileStore` class whose `SetAPIKey` is the load-modify-save of the key.
- **Helper modules**:
  - `Wrappers`: Option/Result.
  - `Text`: string search, decimal rendering, UTF-8 byte length.
  - `Json`: JSON values and Go's struct-decoding rules. Absent or `null` fields keep
    their zero value, the first type error is reported, and integers must fit 64 bits.
  - `Conversation`: the message and content-block values sent to the provider.
  - `Http`: replies; `http.Error` appends a newline.
  - `Paths`: `filepath.Join`/`Clean` with Unix rules over a separator parameter.

Effects are parameters:
- The tool server's HTTP round trip is a function from endpoint and payload to an
  outcome: transport failure, body-read failure, or a status with a body and the
  decoder's verdict on it.
- The RStudio RPC call also receives the Authorization header.
- The provider's key check is a function from key to an optional error text.
- The provider's streaming responses are a script of turns.
- File-system failures while saving are a `SaveFault` value.
- The wait for a WebSocket tool response is the sequence of replies read before the
  30-second timer fires.
- Fresh request ids are supplied by the caller.

The source declares `sendToolCommand`, `sendTextEditorCommand` and `handleToolResponse`
in both `websocket.go` and `websocket_tool_rpc.go`; the model follows
`websocket_tool_rpc.go`. `handlers.go:14-133` repeats the misc handlers, which are
modelled from `misc_handlers.go`.

## Model

| member | source | states |
|---|---|---|
| Text.Utf8Length | daemon/internal/api/misc_handlers.go:74-78 | the byte length `len` counts for a string: between its character count and four times it |
| Text.Utf8LengthAppend | daemon/internal/api/misc_handlers.go:74-78 | byte length adds up over concatenation |
| Text.AsciiUtf8Length | daemon/internal/api/misc_handlers.go:74-78 | for ASCII text the byte length equals the character count |
| Text.ContainsAt | daemon/internal/api/handlers.go:258 | a substring placed at any position is found by the containment test |
| Json.TypedStringField | daemon/internal/api/text_editor_tool.go:34-55 | a string-typed struct field decodes to the member's string; an absent or null member gives "" and no error; any other kind gives Go's "cannot unmarshal … into Go struct field … of type …" error and "" |
| Json.IntField | daemon/internal/api/text_editor_tool.go:53 | an int field decodes a number that fits 64 bits; a number outside that range gives 0 and the error quoting the number ("cannot unmarshal number <n> into Go struct field …"); any other non-null kind gives 0 and the type error naming its kind |
| Json.IntsField | daemon/internal/api/text_editor_tool.go:41 | an `[]int` field decodes to one element per array item; a member that is not an array gives the empty slice |
| Json.IntItemsRoundTrip | daemon/internal/api/text_editor_tool.go:41 | encoding a list of 64-bit ints and decoding it gives it back with no error |
| TextEditorTool.CommandNameRoundTrip | daemon/internal/api/text_editor_tool.go:23-32 | the four command names are distinct: each command's name maps back to that command, and only those four names are commands |
| TextEditorTool.DecodeEditorInput | daemon/internal/api/text_editor_tool.go:34-55 | decoding the tool input: a malformed text gives its syntax error and the zero input; a non-object gives the type error; an object fills every field, keeping the first field error in the struct's field order |
| TextEditorTool.EditorInputRoundTrip | daemon/internal/api/text_editor_tool.go:34-55 | an input whose numbers fit 64 bits survives encoding and decoding unchanged and without error |
| TextEditorTool.Endpoint | daemon/internal/api/text_editor_tool.go:143 | each command posts to `/text_editor/` followed by its own name |
| TextEditorTool.DecodeToolOutput | daemon/internal/api/text_editor_tool.go:57-97 | a tool output decodes from an object's content and error strings, a mistyped field failing with its struct-field error; null gives the empty output; other kinds give the type error for the output type |
| TextEditorTool.ToolOutputRoundTrip | daemon/internal/api/text_editor_tool.go:57-97 | an encoded output decodes back to itself |
| TextEditorTool.MakeToolRequest | daemon/internal/api/text_editor_tool.go:105-138 | transport and body-read failures carry their cause in an error; a non-200 status is the error "HTTP <code>: <body>"; a 200 body that does not decode into the output type is an error; otherwise the decoded output |
| TextEditorTool.Wrap | daemon/internal/api/text_editor_tool.go:144-151 | a request error becomes an output with empty content and "Failed to communicate with R server: " plus the error; a success is passed through unchanged |
| TextEditorTool.RunEditorCommand | daemon/internal/api/text_editor_tool.go:140-194 | a wrapper posts to its command's endpoint, and on a 200 reply with a decodable body returns exactly the server's output |
| TextEditorTool.EmptyErrorMeansServerAnswer | daemon/internal/api/text_editor_tool.go:140-194 | a wrapper output with an empty error can only come from a 200 answer; failures are visible only through the error string |
| TextEditorTool.ServerOutputReachesCaller | daemon/internal/api/text_editor_tool.go:151 | whatever output the server answers with reaches the caller unchanged |
| ConsoleTool.ConsoleExec | daemon/internal/api/console_tool.go:18-30 | posts the code to `/console/exec`; a request error gives empty content and the communication-failure message; success returns the decoded output |
| Tools.ValidateReadFileInput | daemon/internal/api/tools.go:31-36 | fails, with "path is required", exactly when the path is empty |
| Tools.ValidateListFilesInput | daemon/internal/api/tools.go:51-53 | always succeeds |
| Tools.ErrorAnswerText | daemon/internal/api/tools.go:116-128 | the error text of a refused call: the body's string "error" member when there is one, otherwise "HTTP <code>" |
| Tools.Interpret | daemon/internal/api/tools.go:71-96 | the outcome of an RPC call: request and body-read failures with their prefixes, a non-200 status as a refusal, an unparseable body as a parse error, null as an empty object, any other non-object as a type error |
| Tools.ReadFileFromRStudio | daemon/internal/api/tools.go:99-148 | posts to `/read` with the bearer token; a refusal is a result whose error is the answer's error text, never a Go error; a 200 body with a string content is a result with that content and no error; a missing or non-string content is an error with no result |
| Tools.ContainsDot | daemon/internal/api/tools.go:223-230 | true exactly when some character is '.' |
| Tools.ListingEntries | daemon/internal/api/tools.go:200-215 | every entry of the listing comes from a string item of `files`, carries it as its path, and is marked a directory exactly when the name is non-empty and ends in '/' or has no '.' |
| Tools.ListingAt | daemon/internal/api/tools.go:200-215 | each item of `files` has its place in the listing: the items before it, then one entry for a string item with the directory heuristic and none for any other item, then the items after it |
| Tools.ListingAppend | daemon/internal/api/tools.go:200-215 | the listing of two batches of files is the concatenation of their listings |
| Tools.ListFilesFromRStudio | daemon/internal/api/tools.go:151-220 | posts to `/list`; a refusal is a result carrying the error text; a missing or non-array `files` is an error; otherwise the result's objects are the listing of `files` |
| Utils.StreamToolCallStart | daemon/internal/api/utils.go:29-38 | the "requesting" line carries the tool name and input |
| Utils.StreamToolCallComplete | daemon/internal/api/utils.go:41-64 | the "completed" line carries name, input and result; the returned flag is true exactly when the result is an editor output with a non-empty error |
| Utils.EncodeBody | daemon/internal/api/utils.go:87-94 | base64 encoding without padding yields ceil(4n/3) alphabet characters |
| Utils.Base64RoundTripLength | daemon/internal/api/utils.go:87-99 | standard base64 encoding of any bytes is accepted by the validity check and decodes to exactly as many bytes |
| Utils.ValidateImageContent | daemon/internal/api/utils.go:77-102 | accepts exactly a supported media type with non-empty valid base64 data of at most 5 MiB decoded; the media type is checked first; each failure has its own message: unsupported type, missing data, invalid base64, and "image too large: N bytes (max 5242880 bytes)" |
| Utils.EncodedImageAccepted | daemon/internal/api/utils.go:74-99 | any non-empty image of at most 5·1024·1024 bytes, encoded in base64 with a supported type, passes, the exact limit included |
| Utils.EncodedImageTooLarge | daemon/internal/api/utils.go:97-99 | any encoded image over the limit is refused |
| Utils.ConvertedFailsAtFirstBadImage | daemon/internal/api/utils.go:105-126 | the conversion fails exactly when some image is invalid, and then with the first bad image's error |
| Utils.ConvertedFailureSticks | daemon/internal/api/utils.go:114-117 | once the conversion has failed, further contents do not change the error |
| Utils.ConvertedAppend | daemon/internal/api/utils.go:108-123 | on success, converting a concatenation concatenates the blocks: order is kept, empty texts and unknown kinds contribute nothing |
| Utils.ConvertToAnthropicContent | daemon/internal/api/utils.go:105-126 | the loop returns the conversion's blocks, or its error and no blocks |
| Paths.CleanIdempotent | daemon/internal/api/config.go:30 | cleaning a cleaned path changes nothing |
| Paths.JoinNormal | daemon/internal/api/config.go:30 | joining a clean base with a plain name appends separator and name |
| Paths.JoinTwice | daemon/internal/api/config.go:51 | joining twice i.e. dir then file nests: the second join appends the file to the first join's result |
| Paths.StackOfPathIsClean | daemon/internal/api/config.go:30 | the element stack of a cleaned path is already clean |
| Config.ConfigBase | daemon/internal/api/config.go:19-46 | on Windows the first non-empty of APPDATA, LOCALAPPDATA, HOME, never an error; elsewhere XDG_CONFIG_HOME or HOME joined with ".config"; error exactly off Windows with both empty |
| Config.ConfigDirEndsInRishi | daemon/internal/api/config.go:19-46 | the config directory is its base joined with "rishi" |
| Config.ConfigPathInConfigDir | daemon/internal/api/config.go:49-55 | the config path is the config directory, a separator and "config.json" |
| Config.ConfigRoundTrip | daemon/internal/api/config.go:14-16 | a saved config reads back as itself |
| Config.LoadConfig | daemon/internal/api/config.go:58-80 | a missing file gives the empty config; an unreadable or unparseable one gives the prefixed error |
| Config.SavedConfigLoads | daemon/internal/api/config.go:83-133 | a file written by the save loads back as the config saved |
| Config.LoadIgnoresOtherFiles | daemon/internal/api/config.go:58-80 | loading depends only on the config path's entry |
| Config.SaveError | daemon/internal/api/config.go:83-133 | each file-system fault maps to the save's error message; a failing chmod is ignored |
| Config.FileStore.SetAPIKey | daemon/internal/api/config.go:145-154 | on success only the config file changes, and it loads back as a config holding the new key, whether or not the old file could be loaded; on error nothing changes |
| MiscHandlers.HandleGetAPIKey | daemon/internal/api/misc_handlers.go:28-48 | `has_key` is true exactly when the stored key is non-empty; a load error gives no key |
| MiscHandlers.HandleValidateAPIKey | daemon/internal/api/misc_handlers.go:51-101 | a bad body and an empty key give 400 with their messages; the provider is asked only about keys with the prefix of at least 20 bytes; `valid` is true exactly when there was no error or its text lacks "401" |
| MiscHandlers.ValidAnswerMeaning | daemon/internal/api/misc_handlers.go:96 | every error that mentions 401 anywhere is reported invalid |
| MiscHandlers.ShortKeysNeverProbed | daemon/internal/api/misc_handlers.go:67-78 | a short ASCII key is refused without asking the provider |
| MiscHandlers.ByteLengthCounts | daemon/internal/api/misc_handlers.go:74-78 | the length check counts bytes: a key of fewer than 20 characters can pass it |
| MiscHandlers.HandleSetAPIKey | daemon/internal/api/misc_handlers.go:104-128 | bad body and empty key give 400, a save failure 500 with its message and the store unchanged, success `{"success": true}` after which get reports the key |
| WebSocket.FrameRoundTrip | daemon/internal/api/websocket.go:31-37 | a frame encoded with its omitted-when-empty fields decodes back to itself |
| WebSocket.Offer | daemon/internal/api/websocket.go:163-169 | a frame is queued when there is room; a full queue is closed and the frame dropped; a closed queue drops it |
| WebSocket.OfferAllBounded | daemon/internal/api/websocket.go:75 | however many frames are offered, the queue never exceeds 256 |
| WebSocket.OfferAllFits | daemon/internal/api/websocket.go:163-169 | frames that fit are all queued in order and the queue stays open |
| WebSocket.OfferAllOverflow | daemon/internal/api/websocket.go:163-169 | offering more than fits closes the queue holding exactly its capacity |
| WebSocket.OfferAsWritten | daemon/internal/api/websocket.go:163-169 | the send as written: a send after the close panics |
| WebSocket.SendAfterOverflowPanics | daemon/internal/api/websocket.go:163-169 | with the queue full, one send closes it and the next send panics |
| WebSocket.Take | daemon/internal/api/websocket.go:132-160 | the writer writes and removes the head frame; on an empty queue it sends a close frame exactly when the queue is closed, and otherwise idles |
| WebSocket.Connection.SendMessage | daemon/internal/api/websocket.go:163-169 | the queue becomes the corrected offer's outcome and stays within capacity; the returned flag is set exactly when the send as written panics (the queue was already closed), and otherwise the queue is the as-written outcome |
| WebSocket.Connection.WriteNext | daemon/internal/api/websocket.go:132-160 | one writer step removes the frame it writes |
| WebSocket.AuthorizationDeterminesToken | daemon/internal/api/websocket.go:59-63 | only the exact header "Bearer "+token is accepted, so the accepted header determines the token |
| WebSocket.HandleWebSocket | daemon/internal/api/websocket.go:56-81 | refused with 401 "Unauthorized" unless the header is exactly the bearer token; otherwise a fresh connection with an empty queue and no name |
| WebSocket.DecodeReply | daemon/internal/api/websocket_tool_rpc.go:55-66 | a result that cannot be re-encoded or decoded becomes an output with "Failed to marshal response" or "Failed to parse response" |
| WebSocket.ResolveReply | daemon/internal/api/websocket_tool_rpc.go:42-72 | an unknown id changes nothing; a pending id with a `text_editor`/`view` reply fills an empty view sink; any other pair leaves the table and sinks unchanged |
| WebSocket.ResolveAllKeys | daemon/internal/api/websocket_tool_rpc.go:42-72 | handling replies never adds or removes pending ids |
| WebSocket.ResolveAllSeparate | daemon/internal/api/websocket_tool_rpc.go:42-72 | replies for one id never touch another id's sink |
| WebSocket.FirstReplyWins | daemon/internal/api/websocket_tool_rpc.go:23-38 | the waiting caller receives the first view reply for its id |
| WebSocket.UnrelatedRepliesIgnored | daemon/internal/api/websocket_tool_rpc.go:52-71 | replies for other ids or other tool pairs leave the caller's sink empty |
| WebSocket.Teardown | daemon/internal/api/websocket.go:85-90 | teardown removes the session's name only while it still points at this session |
| WebSocket.StaleSessionTeardown | daemon/internal/api/websocket.go:85-90 | as written, an old session's teardown removes the newer session's registration |
| WebSocket.DispatchSpec | daemon/internal/api/websocket.go:109-127 | dispatching a frame never adds or removes pending ids |
| WebSocket.HandshakeRegisters | daemon/internal/api/websocket.go:117-120 | any handshake, whatever it carries, registers the session under "r_tool_rpc" |
| WebSocket.MalformedSkipped | daemon/internal/api/websocket.go:109-113 | an unparseable frame changes nothing |
| WebSocket.OnlyHandshakesRegister | daemon/internal/api/websocket.go:109-127 | frames other than handshakes leave the registry unchanged |
| WebSocket.Manager.AddConnection | daemon/internal/api/websocket.go:172-176 | the name now maps to the connection, overwriting; nothing else changes |
| WebSocket.Manager.RemoveConnection | daemon/internal/api/websocket.go:179-183 | the name is removed; no other name changes |
| WebSocket.Manager.SendToClient | daemon/internal/api/websocket.go:186-197 | an unregistered name gives ClientNotConnected and queues nothing; a registered one offers the frame to that connection only, and the returned flag says whether the send as written panics |
| WebSocket.Manager.SendToolCommand | daemon/internal/api/websocket_tool_rpc.go:75-112 | on success the fresh id is pending with its sink and one `tool_request` frame with that id, tool, command and input went to "r_tool_rpc"; on failure `pending` is as before and the id is "" |
| WebSocket.Manager.HandleToolResponse | daemon/internal/api/websocket_tool_rpc.go:42-72 | the table becomes the reply's resolution |
| WebSocket.Manager.SendTextEditorCommand | daemon/internal/api/websocket_tool_rpc.go:11-39 | a failed send returns its error and leaves no entry; otherwise the id is removed again on both paths, the output is the first view reply, and Timeout exactly when none came |
| WebSocket.Manager.Dispatch | daemon/internal/api/websocket.go:109-127 | one frame's effect is its dispatch specification |
| WebSocket.Manager.ReadPump | daemon/internal/api/websocket.go:83-129 | the registry after the loop is the frames' dispatch followed by the guarded teardown, which agrees with the unconditional removal as written whenever the session's name is unregistered or still names this session |
| Chat.DecodeChatBody | daemon/internal/api/handlers.go:159-170 | a malformed body is the empty body; an object fills message, model, max_tokens and history, mistyped fields staying zero |
| Chat.SelectedName | daemon/internal/api/handlers.go:206-210 | the body's model wins over the X-Model header |
| Chat.ModelFor | daemon/internal/api/handlers.go:204-227 | 3.7 is chosen exactly for "claude-3.7-sonnet"; any other name gives Sonnet 4 |
| Chat.ToolsFor | daemon/internal/api/handlers.go:234-239 | a tool is declared only for the two exact names, in the version of that model |
| Chat.UnknownModelHasNoTools | daemon/internal/api/handlers.go:204-239 | an unknown name selects Sonnet 4 with no tools |
| Chat.MaxTokensFor | daemon/internal/api/handlers.go:229-232 | 0 becomes 8192, any other value is kept |
| Chat.HistoryAppend | daemon/internal/api/handlers.go:185-195 | history conversion distributes over concatenation: entries are converted one by one, in order |
| Chat.HistoryKeepsKnownRoles | daemon/internal/api/handlers.go:185-195 | user and assistant entries are all kept, in order, with their roles and text |
| Chat.InitialMessages | daemon/internal/api/handlers.go:183-200 | the system prompt comes first, as a user message |
| Chat.NewMessageLast | daemon/internal/api/handlers.go:197-199 | a non-empty new message is the last message of the first request |
| Chat.BuildMessages | daemon/internal/api/handlers.go:183-200 | the loop builds the system prompt, the converted history and the non-empty new message |
| Chat.DispatchToolUse | daemon/internal/api/handlers.go:303-487 | a tool other than the editor gets a null result and no lines; the error flag is true exactly when the response is an editor output with a non-empty error |
| Chat.BadInputAnsweredWithError | daemon/internal/api/handlers.go:311-329 | unparseable input or an empty command is answered by a view output with empty content, a non-empty error, and the error flag set |
| Chat.InsertFallback | daemon/internal/api/handlers.go:384-406 | insert sends new_str, or insert_text when new_str is empty |
| Chat.KnownCommandEvents | daemon/internal/api/handlers.go:332-487 | a known command streams its "requesting" line with its own input, then its "completed" line |
| Chat.UnknownCommandIgnored | daemon/internal/api/handlers.go:331-398 | an editor call whose command is none of the four gets a null result, streams no line and is not flagged as an error |
| Chat.ErrorFlagAgreesWithHelper | daemon/internal/api/handlers.go:418-486 | the error flag of a tool result agrees with the one streamToolCallComplete computes |
| Chat.ProcessBlocksShape | daemon/internal/api/handlers.go:299-493 | a turn's results are its tool uses' results in order; each text block appends an assistant text message, and each tool use appends its call then a user message holding every result of the turn so far |
| Chat.ProcessBlocksGrowth | daemon/internal/api/handlers.go:299-493 | one result per tool use, and the history is only appended to |
| Chat.ProcessTurnBlocks | daemon/internal/api/handlers.go:299-493 | the block loop computes the turn's history, results and lines |
| Chat.Friendly | daemon/internal/api/handlers.go:255-263 | overload errors map to the fixed high-demand text, others to the prefixed error |
| Chat.OverloadAnywhere | daemon/internal/api/handlers.go:258 | "overloaded_error" anywhere in the text selects the high-demand text |
| Chat.ChatSpec | daemon/internal/api/handlers.go:137-152 | OPTIONS gives 204, another non-POST 405, a missing key 401, each before anything is streamed; nothing else is rejected |
| Chat.HandleChat | daemon/internal/api/handlers.go:137-511 | the handler's outcome is the model's: rejection, or the lines, provider requests, history and ending of the loop |
| Chat.RunLoop | daemon/internal/api/handlers.go:240-510 | the loop's outcome is the outcome of running the turns |
| Chat.StreamTurn | daemon/internal/api/handlers.go:249-278 | a turn streams its text deltas, then an accumulation error's line |
| Chat.TurnWithoutToolUseEnds | daemon/internal/api/handlers.go:496-508 | a turn without tool use ends the chat after one more request, with the final line last |
| Chat.TurnWithToolUseContinues | daemon/internal/api/handlers.go:496-509 | a turn with a tool use is followed by another request carrying the extended history |
| Chat.StreamErrorStops | daemon/internal/api/handlers.go:281-298 | a stream error streams one error line and stops, leaving the history |
| Chat.FinalIsLast | daemon/internal/api/handlers.go:496-508 | the final line is streamed at most once, only as the last line, and exactly when the chat ends with a turn without tool calls |
| Chat.CallsExtendHistory | daemon/internal/api/handlers.go:240-248 | every request has the same model, token limit and tools; the first carries the initial history, and each carries the one before it, extended |
| Chat.PlainAnswer | daemon/internal/api/handlers.go:137-511 | a first turn with only text makes one request with the initial history and streams its text then the final line |

## Left out

- Transport: the WebSocket upgrade itself, read limits, deadlines, ping/pong and the writer's ticker; the flushing of NDJSON lines; HTTP headers other than those checked.
- Concurrency: mutexes, goroutines and channel races are erased; each operation runs alone. A late response sent on a channel closed by the cleanup is not modelled.
- The Anthropic SDK: streaming, accumulation and the key-check call are a script of turns and an error oracle; the provider's own decisions are inputs.
- Byte-level JSON: JSON values are a datatype; fractional numbers, case-insensitive matching of field names, and the difference between a nil and an empty `view_range` (both are an empty sequence) are not modelled.
- TextEditorTool.DecodeEditorInput, TextEditorTool.DecodeToolOutput, Json.FirstError: JSON objects are maps, so when several fields have type errors the error kept is the first in the struct's field order (for a tool output: content before error), whereas Go keeps the first in the text's key order.
- Json.IntField: the overflow message quotes the number's decimal form; Go quotes the literal as written, which differs only for literals the model cannot hold (exponents, fractions).
- WebSocket.Connection.SendMessage, WebSocket.Manager.SendToClient: the queue follows the corrected `Offer` (a frame sent to a closed queue is dropped); the panic of the send as written is reported only through the returned flag.
- WebSocket.Manager.SendToolCommand, WebSocket.Manager.SendTextEditorCommand: these follow the corrected `Offer`; when the "r_tool_rpc" queue is already closed the source panics inside the send, whereas these methods carry on as if the frame had been dropped.
- WebSocket.Manager.ReadPump: the teardown is the corrected `Teardown`; the source removes the session's name even when it now names a newer session (see Findings), which `TeardownAsWritten` models.
- Utils.ValidateImageContent: the invalid-base64 message does not carry the decoder's byte offset of the first bad character.
- Paths: Windows volume names and '/' as an alternate separator on Windows are not modelled; `Clean` follows the Unix rules over the chosen separator.
- `RISHI_SYSTEM_PROMPT` is not part of this model; it is a parameter of the chat handler.
- Unreachable branches: the marshal failures of tool results and request payloads (handlers.go:410-414, tools.go, text_editor_tool.go), request construction failures, the missing-flusher reply (handlers.go:176-180) and the second stream-error check after a turn without tool use (handlers.go:498-502), which cannot fire because the same error was checked before.
- Chat.RunTurns: when the script has no further turn the loop stops with the ending `ScriptEnded`; the source would keep requesting.
- WebSocket.Fill, WebSocket.ResolveReply: a response delivered into a sink whose one-slot channel is already full is dropped rather than blocking the read loop.
- The tool server and the RPC server are stateless oracles: a create followed by a view does not see the created file.
- Config.FileStore.SetAPIKey: the directory creation's own effects and the temporary file's name are not modelled; the store maps paths to file states.
- `GenerateSchema`, uuid generation (the id is a fresh parameter), `main.go`, `server.go` routing, `handleHealth`, logging and the sampling temperature are not modelled.
- The duplicate definitions in handlers.go:14-133 and websocket.go:199-306 are modelled once, from misc_handlers.go and websocket_tool_rpc.go.

## Findings

| source | as written | input that shows it | evidently intended | confidence | as-written member | corrected member |
|---|---|---|---|---|---|---|
| daemon/internal/api/websocket.go:85-90 | a session's teardown deletes the registry's "r_tool_rpc" entry whatever connection it now names | session A handshakes, session B handshakes and replaces it, then A disconnects: B is unregistered while still connected | remove the name only while it still points at the closing session | not executed | WebSocket.StaleSessionTeardown | WebSocket.Teardown |
| daemon/internal/api/websocket.go:163-169 | on a full queue the send channel is closed, and a later send on it panics | 256 queued frames, a 257th closes the queue, a 258th send is a send on a closed channel | drop frames once the queue is closed | not executed | WebSocket.SendAfterOverflowPanics | WebSocket.Offer |
