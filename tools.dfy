/**
  The read_file and list_files tools: input validation, and how the RPC
  server's answers are turned into tool results. The HTTP round trip of
  makeRPCRequest is an oracle given the endpoint, the Authorization header
  it sends and the JSON payload.
*/
module Tools {
  import opened Wrappers
  import opened Json
  import opened TextEditorTool
  import Text

  datatype ReadFileInput = ReadFileInput(path: string)

  datatype ListFilesInput = ListFilesInput(path: string, recursive: bool)

  /** validateReadFileToolInput: the only rejected input is an empty path. */
  function ValidateReadFileInput(input: ReadFileInput): (err: Option<string>)
    ensures err.None? <==> input.path != ""
    ensures err.Some? ==> err.value == "path is required"
  {
    if input.path == "" then Some("path is required") else None
  }

  /** validateListFilesToolInput: every input is accepted (an empty path means the root). */
  function ValidateListFilesInput(input: ListFilesInput): (err: Option<string>)
    ensures err.None?
  {
    None
  }

  datatype ReadFileResult = ReadFileResult(content: string, error: string)

  datatype ListEntry = ListEntry(path: string, isDir: bool)

  datatype ListFilesResult = ListFilesResult(objects: seq<ListEntry>, error: string)

  /** (endpoint, Authorization header, payload) -> answer */
  type RpcPoster = (string, string, Json) -> HttpOutcome

  function Bearer(token: string): string {
    "Bearer " + token
  }

  const ReadMaxBytes := 2000000
  const ListMaxItems := 50

  function ReadPayload(path: string): Json {
    JObject(map["relpath" := JString(path), "max_bytes" := JNumber(ReadMaxBytes)])
  }

  function ListPayload(path: string, recursive: bool): Json {
    JObject(map["path" := JString(path), "pattern" := JNull, "recursive" := JBool(recursive), "max_items" := JNumber(ListMaxItems)])
  }

  /**
    The error text of a non-200 answer: the body's string "error" member when
    the body decodes as an object with one, otherwise "HTTP <code>".
  */
  function ErrorAnswerText(status: int, body: RawJson): (e: string)
    ensures (body.parsed.Success? && body.parsed.value.JObject? && "error" in body.parsed.value.fields &&
             body.parsed.value.fields["error"].JString?) ==> e == body.parsed.value.fields["error"].s
    ensures (!(body.parsed.Success? && body.parsed.value.JObject? && "error" in body.parsed.value.fields &&
               body.parsed.value.fields["error"].JString?)) ==> e == "HTTP " + Text.IntToString(status)
  {
    match body.parsed
    case Success(JObject(m)) =>
      if "error" in m && m["error"].JString? then m["error"].s else "HTTP " + Text.IntToString(status)
    case _ => "HTTP " + Text.IntToString(status)
  }

  const MapTypeName := "map[string]interface {}"

  /** The part of an answer both tools interpret alike: transport failures, non-200 statuses and undecodable bodies. */
  datatype Interpreted = Fatal(error: string) | Refused(message: string) | Body(fields: map<string, Json>)

  function Interpret(answer: HttpOutcome): (r: Interpreted)
    ensures answer.RequestFailed? ==> r == Fatal("failed to make RPC request: RPC request failed: " + answer.cause)
    ensures answer.BodyReadFailed? ==> r == Fatal("failed to read response body: " + answer.cause)
    ensures answer.Answered? && answer.status != StatusOK ==> r == Refused(ErrorAnswerText(answer.status, answer.body))
    ensures answer.Answered? && answer.status == StatusOK ==>
      var p := answer.body.parsed;
      (p.Failure? ==> r == Fatal("failed to parse RPC response: " + p.error)) &&
      (p == Success(JNull) ==> r == Body(map[])) &&
      (p.Success? && p.value.JObject? ==> r == Body(p.value.fields)) &&
      (p.Success? && !p.value.JNull? && !p.value.JObject? ==>
         r == Fatal("failed to parse RPC response: " + ValueTypeError(p.value, MapTypeName)))
    ensures r.Body? ==> answer.Answered? && answer.status == StatusOK
  {
    match answer
    case RequestFailed(c) => Fatal("failed to make RPC request: RPC request failed: " + c)
    case BodyReadFailed(c) => Fatal("failed to read response body: " + c)
    case Answered(status, body) =>
      if status != StatusOK then Refused(ErrorAnswerText(status, body))
      else match body.parsed
        case Failure(e) => Fatal("failed to parse RPC response: " + e)
        case Success(JNull) => Body(map[])
        case Success(JObject(m)) => Body(m)
        case Success(other) => Fatal("failed to parse RPC response: " + ValueTypeError(other, MapTypeName))
  }

  /**
    readFileFromRStudio: a non-200 answer is a tool result carrying the error
    (no Go error); a 200 answer must carry a string "content" member.
  */
  function ReadFileFromRStudio(rpc: RpcPoster, token: string, path: string): (r: Result<ReadFileResult, string>)
    ensures var answer := rpc("/read", Bearer(token), ReadPayload(path));
      (answer.Answered? && answer.status != StatusOK ==>
         r == Success(ReadFileResult("", ErrorAnswerText(answer.status, answer.body)))) &&
      (r.Success? ==> answer.Answered?) &&
      (r.Success? && answer.status == StatusOK ==>
         r.value.error == "" && answer.body.parsed.Success? &&
         answer.body.parsed.value.JObject? && "content" in answer.body.parsed.value.fields &&
         answer.body.parsed.value.fields["content"] == JString(r.value.content))
    ensures var answer := rpc("/read", Bearer(token), ReadPayload(path));
      match Interpret(answer)
      case Fatal(e) => r == Failure(e)
      case Refused(msg) => r == Success(ReadFileResult("", msg))
      case Body(m) =>
        if "content" !in m then r == Failure("invalid response format: missing content field")
        else if !m["content"].JString? then r == Failure("invalid response format: content is not a string")
        else r == Success(ReadFileResult(m["content"].s, ""))
  {
    var answer := rpc("/read", Bearer(token), ReadPayload(path));
    match Interpret(answer)
    case Fatal(e) => Failure(e)
    case Refused(msg) => Success(ReadFileResult("", msg))
    case Body(m) =>
      if "content" !in m then Failure("invalid response format: missing content field")
      else if !m["content"].JString? then Failure("invalid response format: content is not a string")
      else Success(ReadFileResult(m["content"].s, ""))
  }

  /** The directory heuristic: a non-empty name that ends in '/' or has no '.' at all. */
  predicate IsDirName(name: string) {
    |name| > 0 && (name[|name| - 1] == '/' || '.' !in name)
  }

  /** containsDot */
  method ContainsDot(s: string) returns (found: bool)
    ensures found <==> '.' in s
  {
    for i := 0 to |s|
      invariant forall j :: 0 <= j < i ==> s[j] != '.'
    {
      if s[i] == '.' {
        return true;
      }
    }
    return false;
  }

  function EntryOf(item: Json): seq<ListEntry> {
    if item.JString? then [ListEntry(item.s, IsDirName(item.s))] else []
  }

  /** The listing of a "files" array: its string items, in order, each with the directory heuristic. */
  function Listing(files: seq<Json>): seq<ListEntry>
    decreases |files|
  {
    if files == [] then [] else Listing(files[..|files| - 1]) + EntryOf(files[|files| - 1])
  }

  /** The listing of two arrays laid end to end is the two listings laid end to end. */
  lemma {:induction false} ListingAppend(a: seq<Json>, b: seq<Json>)
    ensures Listing(a + b) == Listing(a) + Listing(b)
    decreases |b|
  {
    if b == [] {
      assert a + b == a;
    } else {
      var b' := b[..|b| - 1];
      assert (a + b)[..|a + b| - 1] == a + b';
      assert (a + b)[|a + b| - 1] == b[|b| - 1];
      ListingAppend(a, b');
    }
  }

  /** Only string items make entries, each carrying the item as its path. */
  lemma {:induction false} ListingEntries(files: seq<Json>, k: nat)
    requires k < |Listing(files)|
    ensures exists i :: 0 <= i < |files| && files[i] == JString(Listing(files)[k].path) &&
                        Listing(files)[k].isDir == IsDirName(Listing(files)[k].path)
    decreases |files|
  {
    var init := files[..|files| - 1];
    if k < |Listing(init)| {
      ListingEntries(init, k);
      var i :| 0 <= i < |init| && init[i] == JString(Listing(init)[k].path) &&
               Listing(init)[k].isDir == IsDirName(Listing(init)[k].path);
      assert files[i] == init[i];
    } else {
      assert files[|files| - 1] == JString(Listing(files)[k].path);
    }
  }

  /**
    Every item has its place in the listing: the listing is that of the items
    before it, then one entry for a string item (none for any other), then
    that of the items after it.
  */
  lemma {:induction false} ListingAt(files: seq<Json>, i: nat)
    requires i < |files|
    ensures Listing(files) == Listing(files[..i]) + EntryOf(files[i]) + Listing(files[i + 1..])
    ensures files[i].JString? ==> EntryOf(files[i]) == [ListEntry(files[i].s, IsDirName(files[i].s))]
    ensures !files[i].JString? ==> EntryOf(files[i]) == []
  {
    var a, x, b := files[..i], files[i], files[i + 1..];
    assert files == (a + [x]) + b;
    ListingAppend(a + [x], b);
    ListingAppend(a, [x]);
    ListingSingle(x);
  }

  lemma ListingSingle(x: Json)
    ensures Listing([x]) == EntryOf(x)
  {
    assert [x][..0] == [];
  }

  /**
    listFilesFromRStudio: a non-200 answer is a result carrying the error; a
    200 answer must carry an array "files", whose string items are listed in
    order and whose other items are skipped.
  */
  method ListFilesFromRStudio(rpc: RpcPoster, token: string, path: string, recursive: bool)
    returns (r: Result<ListFilesResult, string>)
    ensures var answer := rpc("/list", Bearer(token), ListPayload(path, recursive));
      match Interpret(answer)
      case Fatal(e) => r == Failure(e)
      case Refused(msg) => r == Success(ListFilesResult([], msg))
      case Body(m) =>
        if "files" !in m then r == Failure("invalid response format: missing files field")
        else if !m["files"].JArray? then r == Failure("invalid response format: files is not an array")
        else r == Success(ListFilesResult(Listing(m["files"].items), ""))
  {
    var answer := rpc("/list", Bearer(token), ListPayload(path, recursive));
    match Interpret(answer)
    case Fatal(e) =>
      return Failure(e);
    case Refused(msg) =>
      return Success(ListFilesResult([], msg));
    case Body(m) =>
      if "files" !in m {
        return Failure("invalid response format: missing files field");
      }
      if !m["files"].JArray? {
        return Failure("invalid response format: files is not an array");
      }
      var files := m["files"].items;
      var objects: seq<ListEntry> := [];
      for i := 0 to |files|
        invariant objects == Listing(files[..i])
      {
        assert files[..i + 1][..i] == files[..i];
        if files[i].JString? {
          var filename := files[i].s;
          var dot := ContainsDot(filename);
          var isDir := (|filename| > 0 && filename[|filename| - 1] == '/') || (|filename| > 0 && !dot);
          objects := objects + [ListEntry(filename, isDir)];
        }
      }
      assert files[..|files|] == files;
      return Success(ListFilesResult(objects, ""));
  }
}
