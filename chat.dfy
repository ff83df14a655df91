/**
  handleChat: request checks, history assembly, model and token selection,
  and the agentic loop that streams a provider turn, runs each text-editor
  tool call in order, appends the calls and their results to the history,
  and streams again until a turn makes no tool call.

  The provider is a script of turns; the frontend stream is a sequence of
  events; the tool server is the oracle of the text-editor tool.
*/
module Chat {
  import opened Wrappers
  import opened Json
  import opened TextEditorTool
  import opened Conversation
  import opened Utils
  import opened Http
  import Text

  // ---------------------------------------------------------------- the request

  datatype InboundMessage = InboundMessage(role: string, content: string)

  /** The body: prior messages, the new message, the model name and the token limit. */
  datatype ChatBody = ChatBody(history: seq<InboundMessage>, message: string, model: string, maxTokens: int)

  const EmptyBody := ChatBody([], "", "", 0)

  datatype ChatRequest = ChatRequest(verb: string, apiKey: string, modelHeader: string, body: Result<Json, string>)

  function DecodeInbound(j: Json): (m: InboundMessage)
    ensures j.JObject? ==> m == InboundMessage(StringField(j.fields, "inboundMessage", "role").value,
                                               StringField(j.fields, "inboundMessage", "content").value)
    ensures !j.JObject? ==> m == InboundMessage("", "")
  {
    match j
    case JObject(f) => InboundMessage(StringField(f, "inboundMessage", "role").value, StringField(f, "inboundMessage", "content").value)
    case _ => InboundMessage("", "")
  }

  /**
    The body as the decoder leaves it, errors ignored: a malformed body is
    the empty body, and a mistyped field keeps its zero value while the
    others are filled (a mistyped history item stays as an empty message).
  */
  function DecodeChatBody(raw: Result<Json, string>): (b: ChatBody)
    ensures !(raw.Success? && raw.value.JObject?) ==> b == EmptyBody
    ensures raw.Success? && raw.value.JObject? ==>
      var m := raw.value.fields;
      b.message == StringField(m, "reqBody", "message").value &&
      b.model == StringField(m, "reqBody", "model").value &&
      b.maxTokens == IntField(m, "reqBody", "max_tokens").value &&
      (("history" in m && m["history"].JArray?) ==>
         |b.history| == |m["history"].items| &&
         forall i :: 0 <= i < |b.history| ==> b.history[i] == DecodeInbound(m["history"].items[i])) &&
      (!("history" in m && m["history"].JArray?) ==> b.history == [])
  {
    match raw
    case Success(JObject(m)) =>
      var history :=
        if "history" in m && m["history"].JArray? then
          var items := m["history"].items;
          seq(|items|, i requires 0 <= i < |items| => DecodeInbound(items[i]))
        else [];
      ChatBody(history, StringField(m, "reqBody", "message").value, StringField(m, "reqBody", "model").value,
               IntField(m, "reqBody", "max_tokens").value)
    case _ => EmptyBody
  }

  // ---------------------------------------------------------------- model, tokens and tools

  datatype Model = Sonnet4 | Sonnet37

  const Sonnet37Name := "claude-3.7-sonnet"
  const Sonnet4Name := "claude-4-sonnet"

  /** The body's model name wins over the X-Model header. */
  function SelectedName(body: ChatBody, header: string): (name: string)
    ensures body.model != "" ==> name == body.model
    ensures body.model == "" ==> name == header
  {
    if body.model != "" then body.model else header
  }

  /** Only the exact 3.7 name selects 3.7; every other name, known or not, selects Sonnet 4. */
  function ModelFor(name: string): (m: Model)
    ensures m == Sonnet37 <==> name == Sonnet37Name
  {
    if name == Sonnet37Name then Sonnet37 else Sonnet4
  }

  /** The text-editor tool versions the provider offers. */
  datatype ToolSchema = TextEditor20250728 | TextEditor20250124

  /** A tool is declared only for the two exact names, in the version matching the model. */
  function ToolsFor(name: string): (ts: seq<ToolSchema>)
    ensures ts == [] <==> name != Sonnet4Name && name != Sonnet37Name
    ensures name == Sonnet4Name ==> ts == [TextEditor20250728]
    ensures name == Sonnet37Name ==> ts == [TextEditor20250124]
  {
    if name == Sonnet4Name then [TextEditor20250728]
    else if name == Sonnet37Name then [TextEditor20250124]
    else []
  }

  const DefaultMaxTokens := 8192

  function MaxTokensFor(requested: int): (n: int)
    ensures requested != 0 ==> n == requested
    ensures requested == 0 ==> n == DefaultMaxTokens
  {
    if requested == 0 then DefaultMaxTokens else requested
  }

  /** An unknown model name falls back to Sonnet 4 without tools, so the model can never call one. */
  lemma UnknownModelHasNoTools(name: string)
    requires name != Sonnet4Name && name != Sonnet37Name
    ensures ModelFor(name) == Sonnet4 && ToolsFor(name) == []
  {
  }

  datatype Settings = Settings(model: Model, maxTokens: int, tools: seq<ToolSchema>)

  function SettingsFor(body: ChatBody, header: string): Settings {
    var name := SelectedName(body, header);
    Settings(ModelFor(name), MaxTokensFor(body.maxTokens), ToolsFor(name))
  }

  // ---------------------------------------------------------------- history

  /** One prior message: user and assistant messages become text messages, any other role is dropped. */
  function HistoryMessage(m: InboundMessage): seq<Message> {
    if m.role == "user" then [UserText(m.content)]
    else if m.role == "assistant" then [AssistantText(m.content)]
    else []
  }

  function HistoryMessages(h: seq<InboundMessage>): seq<Message>
    decreases |h|
  {
    if h == [] then [] else HistoryMessages(h[..|h| - 1]) + HistoryMessage(h[|h| - 1])
  }

  /** History conversion goes message by message: it distributes over concatenation. */
  lemma {:induction false} HistoryAppend(a: seq<InboundMessage>, b: seq<InboundMessage>)
    ensures HistoryMessages(a + b) == HistoryMessages(a) + HistoryMessages(b)
    decreases |b|
  {
    if b == [] {
      assert a + b == a;
    } else {
      var b' := b[..|b| - 1];
      assert (a + b)[..|a + b| - 1] == a + b';
      assert (a + b)[|a + b| - 1] == b[|b| - 1];
      HistoryAppend(a, b');
    }
  }

  /** A history whose roles are all user or assistant keeps every message, in order and with its role. */
  lemma {:induction false} HistoryKeepsKnownRoles(h: seq<InboundMessage>)
    requires forall i :: 0 <= i < |h| ==> h[i].role in {"user", "assistant"}
    ensures |HistoryMessages(h)| == |h|
    ensures forall i :: 0 <= i < |h| ==>
      HistoryMessages(h)[i] == Message(if h[i].role == "user" then User else Assistant, [Text(h[i].content)])
    decreases |h|
  {
    if h != [] {
      HistoryKeepsKnownRoles(h[..|h| - 1]);
    }
  }

  /** The system prompt as a user message, the history, then the new message when it is not empty. */
  function InitialMessages(systemPrompt: string, body: ChatBody): (msgs: seq<Message>)
    ensures |msgs| >= 1 && msgs[0] == UserText(systemPrompt)
  {
    [UserText(systemPrompt)] + HistoryMessages(body.history) + (if body.message != "" then [UserText(body.message)] else [])
  }

  /** The new message, when there is one, is the last message sent in the first turn. */
  lemma NewMessageLast(systemPrompt: string, body: ChatBody)
    requires body.message != ""
    ensures var msgs := InitialMessages(systemPrompt, body); msgs[|msgs| - 1] == UserText(body.message)
  {
  }

  method BuildMessages(systemPrompt: string, body: ChatBody) returns (msgs: seq<Message>)
    ensures msgs == InitialMessages(systemPrompt, body)
  {
    msgs := [UserText(systemPrompt)];
    for i := 0 to |body.history|
      invariant msgs == [UserText(systemPrompt)] + HistoryMessages(body.history[..i])
    {
      assert body.history[..i + 1][..i] == body.history[..i];
      var m := body.history[i];
      if m.role == "user" {
        msgs := msgs + [UserText(m.content)];
      } else if m.role == "assistant" {
        msgs := msgs + [AssistantText(m.content)];
      }
    }
    assert body.history[..|body.history|] == body.history;
    if body.message != "" {
      msgs := msgs + [UserText(body.message)];
    }
  }

  // ---------------------------------------------------------------- one tool call

  const EditorToolName := "str_replace_based_edit_tool"

  const MissingCommandMessage :=
    "Error: Missing required 'command' field. The text editor tool requires a 'command' parameter. " +
    "Available commands: 'view' (to read files/directories). Example: {\"command\": \"view\", \"path\": \"filename.txt\"}"

  /** The inserted text: new_str, or insert_text when new_str is empty. */
  function InsertedText(x: EditorInput): string {
    if x.newStr != "" then x.newStr else x.insertText
  }

  /** The request each command sends, built from the fields that command uses. */
  function CommandInputFor(c: Command, x: EditorInput): (ci: CommandInput)
    ensures ci.Command() == c
  {
    match c
    case View => ViewIn(x.path, x.viewRange)
    case StrReplace => StrReplaceIn(x.path, x.oldStr, x.newStr)
    case Create => CreateIn(x.path, x.fileText)
    case Insert => InsertIn(x.path, x.insertLine, InsertedText(x))
  }

  /** What running one tool call produced: the events streamed, the response and its error flag. */
  datatype ToolDispatch = ToolDispatch(events: seq<Event>, response: ToolResponse, isError: bool)

  datatype Requested = Requested(start: seq<Event>, response: ToolResponse)

  /** The editor tool's input decoded and dispatched; failures become a view output carrying the error. */
  function RequestFor(input: RawJson, post: Poster): (r: Requested)
  {
    var d := DecodeEditorInput(input.parsed);
    var x := d.value;
    if d.error.Some? then
      Requested([], EditorResponse(View, ToolOutput("", "Failed to parse text editor input: " + input.text + ", error: " + d.error.value)))
    else if x.command == "" then
      Requested([], EditorResponse(View, ToolOutput("", MissingCommandMessage)))
    else match CommandOf(x.command)
      case None => Requested([], NoResponse)
      case Some(c) =>
        var ci := CommandInputFor(c, x);
        Requested([StreamToolCallStart(x.command, ci.Payload())], EditorResponse(c, RunEditorCommand(ci, post)))
  }

  /** One tool-use block of a turn. */
  function DispatchToolUse(name: string, input: RawJson, post: Poster): (d: ToolDispatch)
    ensures name != EditorToolName ==> d == ToolDispatch([], NoResponse, false)
    ensures d.isError <==> d.response.EditorResponse? && d.response.output.error != ""
  {
    if name != EditorToolName then ToolDispatch([], NoResponse, false)
    else
      var r := RequestFor(input, post);
      var x := DecodeEditorInput(input.parsed).value;
      var completion :=
        if r.response.EditorResponse? then [ToolCallEvent(r.response.command.Name(), EncodeEditorInput(x), Completed, Some(r.response))]
        else [];
      ToolDispatch(r.start + completion, r.response, r.response.IsError())
  }

  /** Unparseable input, and input without a command, are answered by a view output holding an error. */
  lemma BadInputAnsweredWithError(input: RawJson, post: Poster)
    requires DecodeEditorInput(input.parsed).error.Some? || DecodeEditorInput(input.parsed).value.command == ""
    ensures var d := DispatchToolUse(EditorToolName, input, post);
      d.response.EditorResponse? && d.response.command == View && d.response.output.content == "" &&
      d.response.output.error != "" && d.isError
  {
  }

  /** An insert sends new_str, or insert_text when new_str is empty. */
  lemma InsertFallback(input: RawJson, post: Poster)
    requires DecodeEditorInput(input.parsed).error.None? && DecodeEditorInput(input.parsed).value.command == "insert"
    ensures var x := DecodeEditorInput(input.parsed).value;
      DispatchToolUse(EditorToolName, input, post).response ==
        EditorResponse(Insert, RunEditorCommand(InsertIn(x.path, x.insertLine, if x.newStr != "" then x.newStr else x.insertText), post))
  {
  }

  /** A known command streams its "requesting" line before its "completed" line. */
  lemma KnownCommandEvents(input: RawJson, post: Poster)
    requires DecodeEditorInput(input.parsed).error.None?
    requires CommandOf(DecodeEditorInput(input.parsed).value.command).Some?
    ensures var x := DecodeEditorInput(input.parsed).value;
      var c := CommandOf(x.command).value;
      var d := DispatchToolUse(EditorToolName, input, post);
      |d.events| == 2 &&
      d.events[0] == StreamToolCallStart(x.command, CommandInputFor(c, x).Payload()) &&
      d.events[1] == StreamToolCallComplete(c.Name(), EncodeEditorInput(x), d.response).0
  {
  }

  /** An editor call with a command outside the four gets a null result, streams nothing and is not flagged. */
  lemma UnknownCommandIgnored(input: RawJson, post: Poster)
    requires DecodeEditorInput(input.parsed).error.None?
    requires DecodeEditorInput(input.parsed).value.command != ""
    requires CommandOf(DecodeEditorInput(input.parsed).value.command).None?
    ensures DispatchToolUse(EditorToolName, input, post) == ToolDispatch([], NoResponse, false)
  {
  }

  /** The error flag of a tool result is the one streamToolCallComplete computes for its response. */
  lemma ErrorFlagAgreesWithHelper(name: string, input: RawJson, post: Poster, eventName: string, eventInput: Json)
    ensures DispatchToolUse(name, input, post).isError ==
      StreamToolCallComplete(eventName, eventInput, DispatchToolUse(name, input, post).response).1
  {
  }

  // ---------------------------------------------------------------- one turn

  /** A block of the assistant message a turn accumulated. */
  datatype ContentBlock = TextBlock(text: string) | ToolUseBlock(id: string, name: string, input: RawJson) | OtherBlock

  /** The history, this turn's tool results so far, and the events streamed so far. */
  datatype TurnState = TurnState(msgs: seq<Message>, results: seq<Block>, events: seq<Event>)

  function ResultBlock(id: string, name: string, input: RawJson, post: Poster): Block {
    var d := DispatchToolUse(name, input, post);
    ToolResult(id, d.response.Encode(), d.isError)
  }

  /**
    A text block is appended as an assistant message; a tool use appends the
    call as an assistant message, then a user message with every tool result
    of the turn so far.
  */
  function StepBlock(st: TurnState, b: ContentBlock, post: Poster): TurnState {
    match b
    case TextBlock(t) => st.(msgs := st.msgs + [AssistantText(t)])
    case ToolUseBlock(id, name, input) =>
      var results := st.results + [ResultBlock(id, name, input, post)];
      TurnState(st.msgs + [Message(Assistant, [ToolUse(id, name, input)]), Message(User, results)],
                results, st.events + DispatchToolUse(name, input, post).events)
    case OtherBlock => st
  }

  function ProcessBlocks(st: TurnState, bs: seq<ContentBlock>, post: Poster): TurnState
    decreases |bs|
  {
    if bs == [] then st else StepBlock(ProcessBlocks(st, bs[..|bs| - 1], post), bs[|bs| - 1], post)
  }

  /** The tool results of a block list, in order: one per tool use. */
  function ToolResultsOf(bs: seq<ContentBlock>, post: Poster): seq<Block>
    decreases |bs|
  {
    if bs == [] then []
    else
      var b := bs[|bs| - 1];
      ToolResultsOf(bs[..|bs| - 1], post) + (if b.ToolUseBlock? then [ResultBlock(b.id, b.name, b.input, post)] else [])
  }

  /** The messages block i appends, given the blocks before it. */
  function MessagesOfBlock(bs: seq<ContentBlock>, i: nat, post: Poster): seq<Message>
    requires i < |bs|
  {
    match bs[i]
    case TextBlock(t) => [AssistantText(t)]
    case ToolUseBlock(id, name, input) => [Message(Assistant, [ToolUse(id, name, input)]), Message(User, ToolResultsOf(bs[..i + 1], post))]
    case OtherBlock => []
  }

  function AppendedMessages(bs: seq<ContentBlock>, n: nat, post: Poster): seq<Message>
    requires n <= |bs|
    decreases n
  {
    if n == 0 then [] else AppendedMessages(bs, n - 1, post) + MessagesOfBlock(bs, n - 1, post)
  }

  lemma {:induction false} AppendedMessagesPrefix(bs: seq<ContentBlock>, n: nat, m: nat, post: Poster)
    requires n <= m <= |bs|
    ensures AppendedMessages(bs[..m], n, post) == AppendedMessages(bs, n, post)
    decreases n
  {
    if n > 0 {
      AppendedMessagesPrefix(bs, n - 1, m, post);
      assert bs[..m][..n] == bs[..n];
    }
  }

  /**
    Within a turn starting with no results: the results are the tool uses'
    results in order, and the history grows by each block's messages in
    order, the user message after the k-th tool use holding the first k
    results.
  */
  lemma {:induction false} ProcessBlocksShape(msgs: seq<Message>, events: seq<Event>, bs: seq<ContentBlock>, post: Poster)
    ensures var st := ProcessBlocks(TurnState(msgs, [], events), bs, post);
      st.results == ToolResultsOf(bs, post) && st.msgs == msgs + AppendedMessages(bs, |bs|, post)
    decreases |bs|
  {
    if bs != [] {
      var init := bs[..|bs| - 1];
      ProcessBlocksShape(msgs, events, init, post);
      AppendedMessagesPrefix(bs, |bs| - 1, |bs| - 1, post);
      assert bs[..|bs|] == bs;
    }
  }

  predicate NoFinal(events: seq<Event>) {
    forall i :: 0 <= i < |events| ==> !events[i].FinalEvent?
  }

  function ToolUseCount(bs: seq<ContentBlock>): nat
    decreases |bs|
  {
    if bs == [] then 0 else ToolUseCount(bs[..|bs| - 1]) + (if bs[|bs| - 1].ToolUseBlock? then 1 else 0)
  }

  /** A turn's blocks: one result per tool use, and the history only grows. */
  lemma {:induction false} ProcessBlocksGrowth(st: TurnState, bs: seq<ContentBlock>, post: Poster)
    ensures var r := ProcessBlocks(st, bs, post);
      |r.results| == |st.results| + ToolUseCount(bs) &&
      |st.msgs| <= |r.msgs| && r.msgs[..|st.msgs|] == st.msgs
    decreases |bs|
  {
    if bs != [] {
      var init := ProcessBlocks(st, bs[..|bs| - 1], post);
      ProcessBlocksGrowth(st, bs[..|bs| - 1], post);
      var r := StepBlock(init, bs[|bs| - 1], post);
      assert r.msgs[..|init.msgs|] == init.msgs;
      assert r.msgs[..|st.msgs|] == init.msgs[..|st.msgs|];
    }
  }

  /** Tool calls stream only tool-call lines: a turn's blocks never stream the final line. */
  lemma {:induction false} ProcessBlocksNoFinal(st: TurnState, bs: seq<ContentBlock>, post: Poster)
    requires NoFinal(st.events)
    ensures NoFinal(ProcessBlocks(st, bs, post).events)
    decreases |bs|
  {
    if bs != [] {
      ProcessBlocksNoFinal(st, bs[..|bs| - 1], post);
      if bs[|bs| - 1].ToolUseBlock? {
        var b := bs[|bs| - 1];
        var d := DispatchToolUse(b.name, b.input, post);
        assert NoFinal(d.events);
      }
    }
  }

  /** The sequential loop of a turn's blocks. */
  method ProcessTurnBlocks(msgs0: seq<Message>, events0: seq<Event>, content: seq<ContentBlock>, post: Poster)
    returns (msgs: seq<Message>, toolResults: seq<Block>, events: seq<Event>)
    ensures TurnState(msgs, toolResults, events) == ProcessBlocks(TurnState(msgs0, [], events0), content, post)
  {
    msgs, toolResults, events := msgs0, [], events0;
    for i := 0 to |content|
      invariant TurnState(msgs, toolResults, events) == ProcessBlocks(TurnState(msgs0, [], events0), content[..i], post)
    {
      assert content[..i + 1][..i] == content[..i];
      match content[i]
      case TextBlock(t) =>
        msgs := msgs + [AssistantText(t)];
      case ToolUseBlock(id, name, input) =>
        var d := DispatchToolUse(name, input, post);
        events := events + d.events;
        msgs := msgs + [Message(Assistant, [ToolUse(id, name, input)])];
        toolResults := toolResults + [ToolResult(id, d.response.Encode(), d.isError)];
        msgs := msgs + [Message(User, toolResults)];
      case OtherBlock =>
    }
    assert content[..|content|] == content;
  }

  // ---------------------------------------------------------------- the loop

  /**
    One provider turn as the stream delivered it: the text deltas streamed
    before it ended, the accumulation error that cut it short, the stream's
    own error, and the content accumulated.
  */
  datatype Turn = Turn(deltas: seq<string>, accumulateError: Option<string>, streamError: Option<string>, content: seq<ContentBlock>)

  /** What each request to the provider carried. */
  datatype ProviderCall = ProviderCall(model: Model, maxTokens: int, messages: seq<Message>, tools: seq<ToolSchema>)

  /** Done: a turn without tool calls; Failed: a stream error; ScriptEnded: the script has no further turn. */
  datatype Ending = Done | Failed | ScriptEnded

  datatype ChatOutcome =
    | Rejected(reply: Reply)
    | Streamed(events: seq<Event>, calls: seq<ProviderCall>, messages: seq<Message>, ending: Ending)

  const HighDemand := "Claude is currently experiencing high demand. Please try again in a few moments."
  const AccumulatePrefix := "Error processing response: "
  const StreamErrorPrefix := "Claude encountered an error: "

  predicate Overloaded(err: string) {
    Text.Contains(err, "overloaded_error") || Text.Contains(err, "Overloaded")
  }

  /** The error line's text: the fixed high-demand text for overload errors, the prefixed error otherwise. */
  function Friendly(err: string, prefix: string): (msg: string)
    ensures Overloaded(err) ==> msg == HighDemand
    ensures !Overloaded(err) ==> msg == prefix + err
  {
    if Overloaded(err) then HighDemand else prefix + err
  }

  /** Any error mentioning an overload, wherever in the text, maps to the high-demand message. */
  lemma OverloadAnywhere(before: string, after: string, prefix: string)
    ensures Friendly(before + "overloaded_error" + after, prefix) == HighDemand
  {
    var err := before + "overloaded_error" + after;
    assert err[|before|..|before| + |"overloaded_error"|] == "overloaded_error";
    Text.ContainsAt(err, "overloaded_error", |before|);
  }

  function DeltaEvents(deltas: seq<string>): (es: seq<Event>)
    ensures |es| == |deltas| && forall i :: 0 <= i < |es| ==> es[i] == TextEvent(deltas[i])
    decreases |deltas|
  {
    if deltas == [] then [] else DeltaEvents(deltas[..|deltas| - 1]) + [TextEvent(deltas[|deltas| - 1])]
  }

  /** The lines a turn's stream produced before the stream's own error is checked. */
  function StreamEvents(turn: Turn): seq<Event> {
    DeltaEvents(turn.deltas) +
      (if turn.accumulateError.Some? then [ErrorEvent(Friendly(turn.accumulateError.value, AccumulatePrefix))] else [])
  }

  /** The loop from turn k on. */
  function RunTurns(s: Settings, script: seq<Turn>, k: nat, msgs: seq<Message>, events: seq<Event>,
                    calls: seq<ProviderCall>, post: Poster): (o: ChatOutcome)
    ensures o.Streamed?
    decreases |script| - k
  {
    if k >= |script| then Streamed(events, calls, msgs, ScriptEnded)
    else
      var turn := script[k];
      var calls' := calls + [ProviderCall(s.model, s.maxTokens, msgs, s.tools)];
      var events' := events + StreamEvents(turn);
      if turn.streamError.Some? then
        Streamed(events' + [ErrorEvent(Friendly(turn.streamError.value, StreamErrorPrefix))], calls', msgs, Failed)
      else
        var st := ProcessBlocks(TurnState(msgs, [], events'), turn.content, post);
        if st.results == [] then Streamed(st.events + [FinalEvent], calls', st.msgs, Done)
        else RunTurns(s, script, k + 1, st.msgs, st.events, calls', post)
  }

  /** The whole handler. */
  function ChatSpec(req: ChatRequest, systemPrompt: string, script: seq<Turn>, post: Poster): (o: ChatOutcome)
    ensures req.verb == "OPTIONS" ==> o == Rejected(Reply(StatusNoContent, NoBody))
    ensures req.verb != "OPTIONS" && req.verb != "POST" ==> o == Rejected(Error("method not allowed", StatusMethodNotAllowed))
    ensures req.verb == "POST" && req.apiKey == "" ==> o == Rejected(Error("missing X-Anthropic-API-Key header", StatusUnauthorized))
    ensures o.Rejected? <==> req.verb != "POST" || req.apiKey == ""
  {
    if req.verb == "OPTIONS" then Rejected(Reply(StatusNoContent, NoBody))
    else if req.verb != "POST" then Rejected(Error("method not allowed", StatusMethodNotAllowed))
    else if req.apiKey == "" then Rejected(Error("missing X-Anthropic-API-Key header", StatusUnauthorized))
    else
      var body := DecodeChatBody(req.body);
      RunTurns(SettingsFor(body, req.modelHeader), script, 0, InitialMessages(systemPrompt, body), [], [], post)
  }

  /** The model, token limit and tools of every request, chosen once from the body and the header. */
  method ChooseSettings(body: ChatBody, header: string) returns (s: Settings)
    ensures s == SettingsFor(body, header)
  {
    var selected := if body.model != "" then body.model else header;
    var model := if selected == Sonnet37Name then Sonnet37 else Sonnet4;
    var maxTokens := body.maxTokens;
    if maxTokens == 0 {
      maxTokens := DefaultMaxTokens;
    }
    var tools: seq<ToolSchema> := [];
    if selected == Sonnet4Name {
      tools := tools + [TextEditor20250728];
    } else if selected == Sonnet37Name {
      tools := tools + [TextEditor20250124];
    }
    s := Settings(model, maxTokens, tools);
  }

  /** Streams a turn's text deltas, stopping at an accumulation error, whose line follows them. */
  method StreamTurn(events0: seq<Event>, turn: Turn) returns (events: seq<Event>)
    ensures events == events0 + StreamEvents(turn)
  {
    events := events0;
    for i := 0 to |turn.deltas|
      invariant events == events0 + DeltaEvents(turn.deltas[..i])
    {
      assert turn.deltas[..i + 1][..i] == turn.deltas[..i];
      events := events + [TextEvent(turn.deltas[i])];
    }
    assert turn.deltas[..|turn.deltas|] == turn.deltas;
    if turn.accumulateError.Some? {
      events := events + [ErrorEvent(Friendly(turn.accumulateError.value, AccumulatePrefix))];
    }
  }

  /** The agentic loop: stream, run the tool calls, and stream again while a turn made one. */
  method RunLoop(s: Settings, script: seq<Turn>, msgs0: seq<Message>, post: Poster) returns (outcome: ChatOutcome)
    ensures outcome == RunTurns(s, script, 0, msgs0, [], [], post)
  {
    var msgs := msgs0;
    var events: seq<Event> := [];
    var calls: seq<ProviderCall> := [];
    var k := 0;
    while true
      invariant k <= |script|
      invariant RunTurns(s, script, k, msgs, events, calls, post) == RunTurns(s, script, 0, msgs0, [], [], post)
      decreases |script| - k
    {
      if k == |script| {
        return Streamed(events, calls, msgs, ScriptEnded);
      }
      var turn := script[k];
      calls := calls + [ProviderCall(s.model, s.maxTokens, msgs, s.tools)];
      events := StreamTurn(events, turn);
      if turn.streamError.Some? {
        events := events + [ErrorEvent(Friendly(turn.streamError.value, StreamErrorPrefix))];
        return Streamed(events, calls, msgs, Failed);
      }
      var toolResults;
      msgs, toolResults, events := ProcessTurnBlocks(msgs, events, turn.content, post);
      if |toolResults| == 0 {
        events := events + [FinalEvent];
        return Streamed(events, calls, msgs, Done);
      }
      k := k + 1;
    }
  }

  /** handleChat */
  method HandleChat(req: ChatRequest, systemPrompt: string, script: seq<Turn>, post: Poster) returns (outcome: ChatOutcome)
    ensures outcome == ChatSpec(req, systemPrompt, script, post)
  {
    if req.verb == "OPTIONS" {
      return Rejected(Reply(StatusNoContent, NoBody));
    }
    if req.verb != "POST" {
      return Rejected(Error("method not allowed", StatusMethodNotAllowed));
    }
    if req.apiKey == "" {
      return Rejected(Error("missing X-Anthropic-API-Key header", StatusUnauthorized));
    }
    var body := DecodeChatBody(req.body);
    var msgs := BuildMessages(systemPrompt, body);
    var s := ChooseSettings(body, req.modelHeader);
    outcome := RunLoop(s, script, msgs, post);
  }

  // ---------------------------------------------------------------- what the loop promises

  /** A turn without tool calls ends the chat with the final line. */
  lemma TurnWithoutToolUseEnds(s: Settings, script: seq<Turn>, k: nat, msgs: seq<Message>, events: seq<Event>,
                               calls: seq<ProviderCall>, post: Poster)
    requires k < |script| && script[k].streamError.None? && ToolUseCount(script[k].content) == 0
    ensures var o := RunTurns(s, script, k, msgs, events, calls, post);
      o.ending == Done && |o.calls| == |calls| + 1 && |o.events| > 0 && o.events[|o.events| - 1] == FinalEvent
  {
    var events' := events + StreamEvents(script[k]);
    ProcessBlocksGrowth(TurnState(msgs, [], events'), script[k].content, post);
  }

  /** A turn with a tool call, and no stream error, is followed by another request to the provider. */
  lemma TurnWithToolUseContinues(s: Settings, script: seq<Turn>, k: nat, msgs: seq<Message>, events: seq<Event>,
                                 calls: seq<ProviderCall>, post: Poster)
    requires k < |script| && script[k].streamError.None? && ToolUseCount(script[k].content) > 0
    ensures var st := ProcessBlocks(TurnState(msgs, [], events + StreamEvents(script[k])), script[k].content, post);
      RunTurns(s, script, k, msgs, events, calls, post) ==
        RunTurns(s, script, k + 1, st.msgs, st.events, calls + [ProviderCall(s.model, s.maxTokens, msgs, s.tools)], post)
  {
    var events' := events + StreamEvents(script[k]);
    ProcessBlocksGrowth(TurnState(msgs, [], events'), script[k].content, post);
  }

  /** A stream error streams one error line and ends the chat without touching the history. */
  lemma StreamErrorStops(s: Settings, script: seq<Turn>, k: nat, msgs: seq<Message>, events: seq<Event>,
                         calls: seq<ProviderCall>, post: Poster)
    requires k < |script| && script[k].streamError.Some?
    ensures var o := RunTurns(s, script, k, msgs, events, calls, post);
      o.ending == Failed && o.messages == msgs &&
      o.events == events + StreamEvents(script[k]) + [ErrorEvent(Friendly(script[k].streamError.value, StreamErrorPrefix))]
  {
  }

  /**
    The final line is streamed at most once, as the very last line, and
    exactly when the chat ended with a turn without tool calls.
  */
  lemma {:induction false} FinalIsLast(s: Settings, script: seq<Turn>, k: nat, msgs: seq<Message>, events: seq<Event>,
                                       calls: seq<ProviderCall>, post: Poster)
    requires NoFinal(events)
    ensures var o := RunTurns(s, script, k, msgs, events, calls, post);
      (o.ending == Done <==> |o.events| > 0 && o.events[|o.events| - 1] == FinalEvent) &&
      (forall i :: 0 <= i < |o.events| - 1 ==> !o.events[i].FinalEvent?)
    decreases |script| - k
  {
    var o := RunTurns(s, script, k, msgs, events, calls, post);
    if k >= |script| {
      if |events| > 0 {
        assert !events[|events| - 1].FinalEvent?;
      }
    } else {
      var turn := script[k];
      var events' := events + StreamEvents(turn);
      assert NoFinal(StreamEvents(turn));
      assert NoFinal(events');
      if turn.streamError.None? {
        var st := ProcessBlocks(TurnState(msgs, [], events'), turn.content, post);
        ProcessBlocksNoFinal(TurnState(msgs, [], events'), turn.content, post);
        if st.results != [] {
          FinalIsLast(s, script, k + 1, st.msgs, st.events, calls + [ProviderCall(s.model, s.maxTokens, msgs, s.tools)], post);
        }
      }
    }
  }

  /**
    Every request carries the same settings, the first carries the initial
    history, and each carries the one before it extended: the history is
    append-only.
  */
  lemma {:induction false} CallsExtendHistory(s: Settings, script: seq<Turn>, k: nat, msgs: seq<Message>, events: seq<Event>,
                                              calls: seq<ProviderCall>, post: Poster)
    ensures var o := RunTurns(s, script, k, msgs, events, calls, post);
      |o.calls| >= |calls| && o.calls[..|calls|] == calls &&
      (forall i :: |calls| <= i < |o.calls| ==>
         o.calls[i].model == s.model && o.calls[i].maxTokens == s.maxTokens && o.calls[i].tools == s.tools) &&
      (|o.calls| > |calls| ==> o.calls[|calls|].messages == msgs) &&
      (forall i :: |calls| <= i < |o.calls| - 1 ==>
         |o.calls[i].messages| <= |o.calls[i + 1].messages| &&
         o.calls[i + 1].messages[..|o.calls[i].messages|] == o.calls[i].messages)
    decreases |script| - k
  {
    if k < |script| {
      var turn := script[k];
      var call := ProviderCall(s.model, s.maxTokens, msgs, s.tools);
      var calls' := calls + [call];
      var events' := events + StreamEvents(turn);
      if turn.streamError.None? {
        var st := ProcessBlocks(TurnState(msgs, [], events'), turn.content, post);
        if st.results != [] {
          ProcessBlocksGrowth(TurnState(msgs, [], []), turn.content, post);
          ProcessBlocksMsgsIgnoreEvents(msgs, events', turn.content, post);
          CallsExtendHistory(s, script, k + 1, st.msgs, st.events, calls', post);
          var o := RunTurns(s, script, k + 1, st.msgs, st.events, calls', post);
          assert o.calls[..|calls|] == o.calls[..|calls'|][..|calls|];
          assert o.calls[|calls|] == call;
          assert |o.calls| > |calls'| ==> o.calls[|calls'|].messages == st.msgs;
        }
      }
    }
  }

  lemma {:induction false} ProcessBlocksMsgsIgnoreEvents(msgs: seq<Message>, events: seq<Event>, bs: seq<ContentBlock>, post: Poster)
    ensures ProcessBlocks(TurnState(msgs, [], events), bs, post).msgs == ProcessBlocks(TurnState(msgs, [], []), bs, post).msgs
    ensures ProcessBlocks(TurnState(msgs, [], events), bs, post).results == ProcessBlocks(TurnState(msgs, [], []), bs, post).results
    decreases |bs|
  {
    if bs != [] {
      ProcessBlocksMsgsIgnoreEvents(msgs, events, bs[..|bs| - 1], post);
    }
  }

  /** A chat whose first turn calls no tool makes one request, with the initial history, and streams its text then the final line. */
  lemma {:induction false} PlainAnswer(req: ChatRequest, systemPrompt: string, turn: Turn, rest: seq<Turn>, post: Poster)
    requires req.verb == "POST" && req.apiKey != ""
    requires turn.accumulateError.None? && turn.streamError.None?
    requires forall i :: 0 <= i < |turn.content| ==> turn.content[i].TextBlock?
    ensures var body := DecodeChatBody(req.body);
      var o := ChatSpec(req, systemPrompt, [turn] + rest, post);
      o.ending == Done &&
      o.calls == [ProviderCall(ModelFor(SelectedName(body, req.modelHeader)), MaxTokensFor(body.maxTokens),
                               InitialMessages(systemPrompt, body), ToolsFor(SelectedName(body, req.modelHeader)))] &&
      o.events == DeltaEvents(turn.deltas) + [FinalEvent]
  {
    var body := DecodeChatBody(req.body);
    var msgs := InitialMessages(systemPrompt, body);
    var events' := [] + StreamEvents(turn);
    assert events' == DeltaEvents(turn.deltas);
    TextOnlyTurn(TurnState(msgs, [], events'), turn.content, post);
    assert ([turn] + rest)[0] == turn;
  }

  lemma {:induction false} TextOnlyTurn(st: TurnState, bs: seq<ContentBlock>, post: Poster)
    requires forall i :: 0 <= i < |bs| ==> bs[i].TextBlock?
    ensures ProcessBlocks(st, bs, post).results == st.results
    ensures ProcessBlocks(st, bs, post).events == st.events
    decreases |bs|
  {
    if bs != [] {
      TextOnlyTurn(st, bs[..|bs| - 1], post);
    }
  }
}
