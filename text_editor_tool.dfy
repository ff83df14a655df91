/**
  The text-editor tool: its command vocabulary, the request and response
  shapes exchanged with the local R tool server, and the wrappers that turn
  every failure into an `error` string instead of a Go error.

  The HTTP round trip is an oracle `post(endpoint, payload)` that either
  fails in transport, fails while reading the body, or answers with a status
  code and a body.
*/
module TextEditorTool {
  import opened Wrappers
  import opened Json
  import Text

  datatype Command = View | StrReplace | Create | Insert {
    /** The wire name of the command (the TextEditorCommand constants). */
    function Name(): string {
      match this
      case View => "view"
      case StrReplace => "str_replace"
      case Create => "create"
      case Insert => "insert"
    }

    /** The Go type whose value a successful call decodes into. */
    function OutputTypeName(): string {
      match this
      case View => "textEditorViewOutput"
      case StrReplace => "textEditorStrReplaceOutput"
      case Create => "textEditorCreateOutput"
      case Insert => "textEditorInsertOutput"
    }
  }

  /** The command a wire name stands for; the four names are the only ones recognised. */
  function CommandOf(name: string): (c: Option<Command>)
    ensures c.Some? <==> name in {"view", "str_replace", "create", "insert"}
    ensures c.Some? ==> c.value.Name() == name
  {
    if name == "view" then Some(View)
    else if name == "str_replace" then Some(StrReplace)
    else if name == "create" then Some(Create)
    else if name == "insert" then Some(Insert)
    else None
  }

  /** Names and commands are in one-to-one correspondence, so the four names are distinct. */
  lemma CommandNameRoundTrip(c: Command)
    ensures CommandOf(c.Name()) == Some(c)
  {
  }

  /** The tool input the model sends (textEditorInput): the union of every command's fields. */
  datatype EditorInput = EditorInput(
    command: string,
    path: string,
    viewRange: seq<int>,
    oldStr: string,
    newStr: string,
    fileText: string,
    insertLine: int,
    insertText: string)

  const EditorInputType := "textEditorInput"

  /** The Go type of the command field, as it appears in decoding errors. */
  const CommandType := "api.TextEditorCommand"

  const EmptyEditorInput := EditorInput("", "", [], "", "", "", 0, "")

  /** json.Unmarshal into a fresh textEditorInput: the (possibly partly filled) struct and the first error. */
  function DecodeEditorInput(p: Result<Json, string>): (d: Decoded<EditorInput>)
    ensures p.Failure? ==> d == Decoded(EmptyEditorInput, Some(p.error))
    ensures p.Success? && !p.value.JObject? && !p.value.JNull? ==> d.value == EmptyEditorInput && d.error.Some?
  {
    match p
    case Failure(e) => Decoded(EmptyEditorInput, Some(e))
    case Success(JNull) => Decoded(EmptyEditorInput, None)
    case Success(JObject(m)) => DecodeEditorObject(m)
    case Success(other) => Decoded(EmptyEditorInput, Some(ValueTypeError(other, "api." + EditorInputType)))
  }

  /** The object case of DecodeEditorInput: every field decoded on its own, the first error kept. */
  function DecodeEditorObject(m: map<string, Json>): (d: Decoded<EditorInput>)
    ensures d.value.command == TypedStringField(m, EditorInputType, "command", CommandType).value
    ensures d.value.path == StringField(m, EditorInputType, "path").value
  {
    var command := TypedStringField(m, EditorInputType, "command", CommandType);
    var path := StringField(m, EditorInputType, "path");
    var viewRange := IntsField(m, EditorInputType, "view_range");
    var oldStr := StringField(m, EditorInputType, "old_str");
    var newStr := StringField(m, EditorInputType, "new_str");
    var fileText := StringField(m, EditorInputType, "file_text");
    var insertLine := IntField(m, EditorInputType, "insert_line");
    var insertText := StringField(m, EditorInputType, "insert_text");
    Decoded(
      EditorInput(command.value, path.value, viewRange.value, oldStr.value, newStr.value,
                  fileText.value, insertLine.value, insertText.value),
      FirstError([command.error, path.error, viewRange.error, oldStr.error, newStr.error,
                  fileText.error, insertLine.error, insertText.error]))
  }

  /** json.Marshal of a textEditorInput (every field is written; an empty range as an empty array). */
  function EncodeEditorInput(x: EditorInput): Json {
    JObject(map[
      "command" := JString(x.command),
      "path" := JString(x.path),
      "view_range" := EncodeInts(x.viewRange),
      "old_str" := JString(x.oldStr),
      "new_str" := JString(x.newStr),
      "file_text" := JString(x.fileText),
      "insert_line" := JNumber(x.insertLine),
      "insert_text" := JString(x.insertText)])
  }

  predicate Int64Input(x: EditorInput) {
    FitsInt64(x.insertLine) && forall i :: 0 <= i < |x.viewRange| ==> FitsInt64(x.viewRange[i])
  }

  /** The eight keys of an encoded tool input, each holding its field. */
  lemma EncodedEditorInputFields(x: EditorInput)
    ensures var m := EncodeEditorInput(x).fields;
      m.Keys == {"command", "path", "view_range", "old_str", "new_str", "file_text", "insert_line", "insert_text"} &&
      m["command"] == JString(x.command) && m["path"] == JString(x.path) &&
      m["view_range"] == EncodeInts(x.viewRange) && m["old_str"] == JString(x.oldStr) &&
      m["new_str"] == JString(x.newStr) && m["file_text"] == JString(x.fileText) &&
      m["insert_line"] == JNumber(x.insertLine) && m["insert_text"] == JString(x.insertText)
  {
  }

  lemma EncodedStringFieldsDecode(x: EditorInput)
    ensures var m := EncodeEditorInput(x).fields;
      TypedStringField(m, EditorInputType, "command", CommandType) == Decoded(x.command, None) &&
      StringField(m, EditorInputType, "path") == Decoded(x.path, None) &&
      StringField(m, EditorInputType, "old_str") == Decoded(x.oldStr, None) &&
      StringField(m, EditorInputType, "new_str") == Decoded(x.newStr, None) &&
      StringField(m, EditorInputType, "file_text") == Decoded(x.fileText, None) &&
      StringField(m, EditorInputType, "insert_text") == Decoded(x.insertText, None)
  {
    EncodedEditorInputFields(x);
  }

  lemma EncodedIntFieldsDecode(x: EditorInput)
    requires Int64Input(x)
    ensures var m := EncodeEditorInput(x).fields;
      IntsField(m, EditorInputType, "view_range") == Decoded(x.viewRange, None) &&
      IntField(m, EditorInputType, "insert_line") == Decoded(x.insertLine, None)
  {
    EncodedEditorInputFields(x);
    IntItemsRoundTrip(x.viewRange, EditorInputType, "view_range");
  }

  /** Encoding a tool input and decoding it again gives back the same input, with no error. */
  lemma EditorInputRoundTrip(x: EditorInput)
    requires Int64Input(x)
    ensures DecodeEditorInput(Success(EncodeEditorInput(x))) == Decoded(x, None)
  {
    EncodedStringFieldsDecode(x);
    EncodedIntFieldsDecode(x);
    var m := EncodeEditorInput(x).fields;
    var errors := [None, None, None, None, None, None, None, None];
    assert FirstError(errors) == None;
    assert DecodeEditorObject(m) == Decoded(x, None);
  }

  /** The input of one command, as sent to the tool server (the four textEditor*Input structs). */
  datatype CommandInput =
    | ViewIn(path: string, viewRange: seq<int>)
    | StrReplaceIn(path: string, oldStr: string, newStr: string)
    | CreateIn(path: string, fileText: string)
    | InsertIn(path: string, insertLine: int, newStr: string)
  {
    function Command(): Command {
      match this
      case ViewIn(_, _) => View
      case StrReplaceIn(_, _, _) => StrReplace
      case CreateIn(_, _) => Create
      case InsertIn(_, _, _) => Insert
    }

    /** The tool-server endpoint the command is posted to. */
    function Endpoint(): (e: string)
      ensures e == "/text_editor/" + Command().Name()
    {
      match this
      case ViewIn(_, _) => "/text_editor/view"
      case StrReplaceIn(_, _, _) => "/text_editor/str_replace"
      case CreateIn(_, _) => "/text_editor/create"
      case InsertIn(_, _, _) => "/text_editor/insert"
    }

    /** json.Marshal of the input struct (`view_range` is omitted when empty). */
    function Payload(): Json {
      match this
      case ViewIn(p, r) =>
        if r == [] then JObject(map["path" := JString(p)])
        else JObject(map["path" := JString(p), "view_range" := EncodeInts(r)])
      case StrReplaceIn(p, o, n) =>
        JObject(map["path" := JString(p), "old_str" := JString(o), "new_str" := JString(n)])
      case CreateIn(p, t) =>
        JObject(map["path" := JString(p), "file_text" := JString(t)])
      case InsertIn(p, l, n) =>
        JObject(map["path" := JString(p), "insert_line" := JNumber(l), "new_str" := JString(n)])
    }
  }

  /** Every command's output (the four textEditor*Output structs and consoleExecOutput share this shape). */
  datatype ToolOutput = ToolOutput(content: string, error: string)

  function EncodeToolOutput(o: ToolOutput): Json {
    JObject(map["content" := JString(o.content), "error" := JString(o.error)])
  }

  /** json.Unmarshal of a decoded body into an output struct named `typeName`. */
  function DecodeToolOutput(p: Result<Json, string>, typeName: string): (r: Result<ToolOutput, string>)
    ensures p.Failure? ==> r == Failure(p.error)
    ensures p == Success(JNull) ==> r == Success(ToolOutput("", ""))
    ensures p.Success? && p.value.JObject? ==>
      var m := p.value.fields;
      (r.Success? <==> StringField(m, typeName, "content").error.None? && StringField(m, typeName, "error").error.None?) &&
      (r.Success? ==> r.value == ToolOutput(StringField(m, typeName, "content").value, StringField(m, typeName, "error").value))
    ensures p.Success? && !p.value.JObject? && !p.value.JNull? ==> r == Failure(ValueTypeError(p.value, "api." + typeName))
  {
    match p
    case Failure(e) => Failure(e)
    case Success(JNull) => Success(ToolOutput("", ""))
    case Success(JObject(m)) =>
      var content := StringField(m, typeName, "content");
      var error := StringField(m, typeName, "error");
      if content.error.Some? then Failure(content.error.value)
      else if error.error.Some? then Failure(error.error.value)
      else Success(ToolOutput(content.value, error.value))
    case Success(other) => Failure(ValueTypeError(other, "api." + typeName))
  }

  /** Decoding what the output struct encodes to gives the same output back. */
  lemma ToolOutputRoundTrip(o: ToolOutput, typeName: string)
    ensures DecodeToolOutput(Success(EncodeToolOutput(o)), typeName) == Success(o)
  {
    var m := EncodeToolOutput(o).fields;
    assert m["content"] == JString(o.content);
    assert m["error"] == JString(o.error);
  }

  /** What the tool-server oracle answers for one POST. */
  datatype HttpOutcome =
    | RequestFailed(cause: string)
    | BodyReadFailed(cause: string)
    | Answered(status: int, body: RawJson)

  type Poster = (string, Json) -> HttpOutcome

  const StatusOK := 200

  /** makeToolRequest: the decoded output of a 200 answer, or the error text of any other outcome. */
  function MakeToolRequest(answer: HttpOutcome, typeName: string): (r: Result<ToolOutput, string>)
    ensures r.Success? <==>
      answer.Answered? && answer.status == StatusOK && DecodeToolOutput(answer.body.parsed, typeName).Success?
    ensures r.Success? ==> r == DecodeToolOutput(answer.body.parsed, typeName)
    ensures answer.Answered? && answer.status != StatusOK ==>
      r == Failure("HTTP " + Text.IntToString(answer.status) + ": " + answer.body.text)
    ensures answer.RequestFailed? ==> r == Failure("HTTP request failed: " + answer.cause)
    ensures answer.BodyReadFailed? ==> r == Failure("failed to read response body: " + answer.cause)
    ensures answer.Answered? && answer.status == StatusOK && DecodeToolOutput(answer.body.parsed, typeName).Failure? ==>
      r == Failure("failed to parse response: " + DecodeToolOutput(answer.body.parsed, typeName).error)
  {
    match answer
    case RequestFailed(c) => Failure("HTTP request failed: " + c)
    case BodyReadFailed(c) => Failure("failed to read response body: " + c)
    case Answered(status, body) =>
      if status != StatusOK then Failure("HTTP " + Text.IntToString(status) + ": " + body.text)
      else match DecodeToolOutput(body.parsed, typeName)
        case Success(o) => Success(o)
        case Failure(e) => Failure("failed to parse response: " + e)
  }

  const CommunicationFailure := "Failed to communicate with R server: "

  /** The wrappers' error discipline: a failed request becomes an output with empty content and a non-empty error. */
  function Wrap(r: Result<ToolOutput, string>): (o: ToolOutput)
    ensures r.Success? ==> o == r.value
    ensures r.Failure? ==> o == ToolOutput("", CommunicationFailure + r.error)
  {
    match r
    case Success(out) => out
    case Failure(e) => ToolOutput("", CommunicationFailure + e)
  }

  /**
    textEditorView, textEditorStrReplace, textEditorCreate and textEditorInsert:
    post the command's input to its endpoint and return the decoded output,
    or a communication-failure output. No Go error is ever returned.
  */
  function RunEditorCommand(input: CommandInput, post: Poster): (o: ToolOutput)
    ensures var answer := post(input.Endpoint(), input.Payload());
      var r := MakeToolRequest(answer, input.Command().OutputTypeName());
      (r.Success? ==> o == r.value) &&
      (r.Failure? ==> o.content == "" && o.error == CommunicationFailure + r.error)
  {
    Wrap(MakeToolRequest(post(input.Endpoint(), input.Payload()), input.Command().OutputTypeName()))
  }

  /**
    A failure is always observable through `error`: an output with an empty
    error is exactly the tool server's 200 answer, decoded unchanged.
  */
  lemma {:induction false} EmptyErrorMeansServerAnswer(input: CommandInput, post: Poster)
    ensures var answer := post(input.Endpoint(), input.Payload());
      RunEditorCommand(input, post).error == "" ==>
        answer.Answered? && answer.status == StatusOK &&
        DecodeToolOutput(answer.body.parsed, input.Command().OutputTypeName()) == Success(RunEditorCommand(input, post))
  {
    var answer := post(input.Endpoint(), input.Payload());
    var r := MakeToolRequest(answer, input.Command().OutputTypeName());
    if r.Failure? {
      assert RunEditorCommand(input, post).error == CommunicationFailure + r.error;
      assert |RunEditorCommand(input, post).error| >= |CommunicationFailure| > 0;
    }
  }

  /** A tool server that answers 200 with an encoded output hands exactly that output to the caller. */
  lemma {:induction false} ServerOutputReachesCaller(input: CommandInput, post: Poster, o: ToolOutput, text: string)
    requires post(input.Endpoint(), input.Payload()) == Answered(StatusOK, RawJson(text, Success(EncodeToolOutput(o))))
    ensures RunEditorCommand(input, post) == o
  {
    ToolOutputRoundTrip(o, input.Command().OutputTypeName());
  }
}
