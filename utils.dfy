/**
  Helpers shared by the chat handler: the NDJSON events written to the
  frontend, image validation (with the standard base64 alphabet of section 4
  of RFC 4648) and the conversion of inbound content into content blocks.
*/
module Utils {
  import opened Wrappers
  import opened Json
  import opened TextEditorTool
  import opened Conversation
  import Text

  // ---------------------------------------------------------------- events

  /** What a tool call answered: nothing (an unknown tool or command), or an editor command's output. */
  datatype ToolResponse = NoResponse | EditorResponse(command: Command, output: ToolOutput)
  {
    /** json.Marshal of the response: a nil response is `null`. */
    function Encode(): Json {
      match this
      case NoResponse => JNull
      case EditorResponse(_, o) => EncodeToolOutput(o)
    }

    /** The error flag a tool result carries: only an editor output with a non-empty error is an error. */
    predicate IsError() {
      EditorResponse? && output.error != ""
    }
  }

  /** One NDJSON line written to the frontend. */
  datatype Event =
    | TextEvent(text: string)
    | ErrorEvent(message: string)
    | FinalEvent
    | ToolCallEvent(name: string, input: Json, status: string, result: Option<ToolResponse>)
  {
    /** The object the line encodes. */
    function Line(): Json {
      match this
      case TextEvent(t) => JObject(map["text" := JString(t)])
      case ErrorEvent(m) => JObject(map["error" := JString(m)])
      case FinalEvent => JObject(map["is_final" := JBool(true)])
      case ToolCallEvent(n, i, s, r) =>
        var call := map["name" := JString(n), "input" := i, "status" := JString(s)];
        JObject(map["tool_call" := JObject(if r.Some? then call["result" := r.value.Encode()] else call)])
    }
  }

  const Requesting := "requesting"
  const Completed := "completed"

  /** streamToolCallStart: the "requesting" line of a tool call. */
  function StreamToolCallStart(name: string, input: Json): (e: Event)
    ensures e.Line() == JObject(map["tool_call" := JObject(map["name" := JString(name), "input" := input, "status" := JString(Requesting)])])
  {
    ToolCallEvent(name, input, Requesting, None)
  }

  /**
    streamToolCallComplete: the "completed" line of a tool call carrying its
    result, and whether that result is an editor output holding an error.
  */
  function StreamToolCallComplete(name: string, input: Json, result: ToolResponse): (r: (Event, bool))
    ensures r.0.Line() == JObject(map["tool_call" := JObject(map[
      "name" := JString(name), "input" := input, "status" := JString(Completed), "result" := result.Encode()])])
    ensures r.1 <==> result.EditorResponse? && result.output.error != ""
  {
    (ToolCallEvent(name, input, Completed, Some(result)), result.IsError())
  }

  // ---------------------------------------------------------------- base64

  predicate IsBase64Char(c: char) {
    ('A' <= c <= 'Z') || ('a' <= c <= 'z') || ('0' <= c <= '9') || c == '+' || c == '/'
  }

  /** The decoder skips carriage returns and line feeds wherever they appear. */
  function StripNewlines(s: string): (t: string)
    ensures |t| <= |s|
    ensures forall i :: 0 <= i < |t| ==> t[i] != '\r' && t[i] != '\n'
  {
    if s == [] then []
    else if s[0] == '\r' || s[0] == '\n' then StripNewlines(s[1..])
    else [s[0]] + StripNewlines(s[1..])
  }

  /** The padding at the end of a quantum-aligned text: "==", "=" or none. */
  function PadCount(t: string): (n: nat)
    ensures n <= 2 && n <= |t|
  {
    if |t| >= 2 && t[|t| - 2] == '=' && t[|t| - 1] == '=' then 2
    else if |t| >= 1 && t[|t| - 1] == '=' then 1
    else 0
  }

  /**
    Padded standard base64 as Go's StdEncoding accepts it: once newlines are
    skipped, whole quanta of four characters, all from the alphabet except
    one or two '=' at the very end.
  */
  predicate Base64Valid(s: string) {
    var t := StripNewlines(s);
    |t| % 4 == 0 && forall i :: 0 <= i < |t| - PadCount(t) ==> IsBase64Char(t[i])
  }

  /** How many bytes a valid text decodes to: three per quantum, less one per '='. */
  function Base64DecodedLength(s: string): nat {
    var t := StripNewlines(s);
    3 * (|t| - PadCount(t)) / 4
  }

  /** The character for a six-bit value, as the table in section 4 of RFC 4648 lists them. */
  function Sextet(v: nat): (c: char)
    requires v < 64
    ensures IsBase64Char(c)
  {
    if v < 26 then ('A' as int + v) as char
    else if v < 52 then ('a' as int + (v - 26)) as char
    else if v < 62 then ('0' as int + (v - 52)) as char
    else if v == 62 then '+'
    else '/'
  }

  /** The alphabet characters of the standard encoding of `data`, before padding. */
  function EncodeBody(data: seq<bv8>): (body: string)
    ensures |body| == (4 * |data| + 2) / 3
    ensures forall i :: 0 <= i < |body| ==> IsBase64Char(body[i])
    decreases |data|
  {
    if |data| == 0 then ""
    else
      var b0 := data[0] as int;
      var b1 := if |data| > 1 then data[1] as int else 0;
      var b2 := if |data| > 2 then data[2] as int else 0;
      var s0 := Sextet(b0 / 4);
      var s1 := Sextet((b0 % 4) * 16 + b1 / 16);
      var s2 := Sextet((b1 % 16) * 4 + b2 / 64);
      var s3 := Sextet(b2 % 64);
      if |data| == 1 then [s0, s1]
      else if |data| == 2 then [s0, s1, s2]
      else
        var rest := EncodeBody(data[3..]);
        assert forall i :: 4 <= i < 4 + |rest| ==> ([s0, s1, s2, s3] + rest)[i] == rest[i - 4];
        [s0, s1, s2, s3] + rest
  }

  /** The padding that completes the last quantum. */
  function PadOf(n: nat): string {
    if n % 3 == 1 then "==" else if n % 3 == 2 then "=" else ""
  }

  /** Standard padded encoding of a byte sequence (what the frontend produces). */
  function Base64Encode(data: seq<bv8>): string {
    EncodeBody(data) + PadOf(|data|)
  }

  lemma {:induction false} NoNewlinesStrip(t: string)
    requires forall i :: 0 <= i < |t| ==> t[i] != '\r' && t[i] != '\n'
    ensures StripNewlines(t) == t
    decreases |t|
  {
    if t != [] {
      NoNewlinesStrip(t[1..]);
    }
  }

  lemma BodyLengthArithmetic(n: nat)
    ensures ((4 * n + 2) / 3 + |PadOf(n)|) % 4 == 0
    ensures 3 * ((4 * n + 2) / 3) / 4 == n
  {
    var k := n / 3;
    var r := n % 3;
    assert n == 3 * k + r;
    assert 4 * n + 2 == 3 * (4 * k + r) + (r + 2);
    if r == 0 {
      assert (4 * n + 2) / 3 == 4 * k;
    } else if r == 1 {
      assert (4 * n + 2) / 3 == 4 * k + 2;
    } else {
      assert (4 * n + 2) / 3 == 4 * k + 3;
    }
  }

  /** The padding is exactly what PadCount finds at the end of an encoding. */
  lemma EncodedPadCount(data: seq<bv8>)
    ensures PadCount(Base64Encode(data)) == |PadOf(|data|)|
  {
    var body := EncodeBody(data);
    var t := body + PadOf(|data|);
    if |body| > 0 {
      assert t[|body| - 1] == body[|body| - 1];
      assert IsBase64Char(body[|body| - 1]);
    }
  }

  lemma EncodedHasNoNewlines(data: seq<bv8>)
    ensures StripNewlines(Base64Encode(data)) == Base64Encode(data)
  {
    var body := EncodeBody(data);
    var t := body + PadOf(|data|);
    assert forall i :: 0 <= i < |body| ==> t[i] == body[i];
    assert forall i :: |body| <= i < |t| ==> t[i] == '=';
    NoNewlinesStrip(t);
  }

  /** Encoding n bytes gives a text the decoder accepts and that decodes to n bytes. */
  lemma {:induction false} Base64RoundTripLength(data: seq<bv8>)
    ensures Base64Valid(Base64Encode(data))
    ensures Base64DecodedLength(Base64Encode(data)) == |data|
  {
    var body := EncodeBody(data);
    var t := Base64Encode(data);
    EncodedHasNoNewlines(data);
    EncodedPadCount(data);
    BodyLengthArithmetic(|data|);
    assert |t| - PadCount(t) == |body|;
    assert forall i :: 0 <= i < |body| ==> t[i] == body[i];
  }

  // ---------------------------------------------------------------- images

  /** inboundContent: one content item of an inbound message. */
  datatype InboundContent = InboundContent(kind: string, content: string, mediaType: string, dataBase64: string)

  const MaxImageSize := 5 * 1024 * 1024

  const ImageMediaTypes := {"image/jpeg", "image/png", "image/webp", "image/gif"}

  /**
    validateImageContent: the media type must be one of four, the data must
    be present and valid base64, and it must decode to at most 5 MiB.
  */
  function ValidateImageContent(c: InboundContent): (err: Option<string>)
    ensures err.None? <==>
      c.mediaType in ImageMediaTypes && c.dataBase64 != "" && Base64Valid(c.dataBase64) &&
      Base64DecodedLength(c.dataBase64) <= MaxImageSize
    ensures c.mediaType !in ImageMediaTypes ==> err == Some("unsupported image media type: " + c.mediaType)
    ensures c.mediaType in ImageMediaTypes && c.dataBase64 == "" ==> err == Some("missing image data")
    ensures c.mediaType in ImageMediaTypes && c.dataBase64 != "" && !Base64Valid(c.dataBase64) ==>
      err == Some("invalid base64 image data: illegal base64 data")
    ensures c.mediaType in ImageMediaTypes && c.dataBase64 != "" && Base64Valid(c.dataBase64) &&
            Base64DecodedLength(c.dataBase64) > MaxImageSize ==>
      err == Some("image too large: " + Text.IntToString(Base64DecodedLength(c.dataBase64)) +
                  " bytes (max " + Text.IntToString(MaxImageSize) + " bytes)")
  {
    if c.mediaType !in ImageMediaTypes then Some("unsupported image media type: " + c.mediaType)
    else if c.dataBase64 == "" then Some("missing image data")
    else if !Base64Valid(c.dataBase64) then Some("invalid base64 image data: illegal base64 data")
    else if Base64DecodedLength(c.dataBase64) > MaxImageSize then
      Some("image too large: " + Text.IntToString(Base64DecodedLength(c.dataBase64)) +
           " bytes (max " + Text.IntToString(MaxImageSize) + " bytes)")
    else None
  }

  /** An image the frontend encoded from at most 5 MiB of bytes, in a supported type, is accepted. */
  lemma EncodedImageAccepted(mediaType: string, data: seq<bv8>)
    requires mediaType in ImageMediaTypes && 0 < |data| <= MaxImageSize
    ensures ValidateImageContent(InboundContent("image", "", mediaType, Base64Encode(data))) == None
  {
    Base64RoundTripLength(data);
  }

  /** An image of more than 5 MiB is refused whatever its type. */
  lemma EncodedImageTooLarge(mediaType: string, data: seq<bv8>)
    requires |data| > MaxImageSize
    ensures ValidateImageContent(InboundContent("image", "", mediaType, Base64Encode(data))).Some?
  {
    Base64RoundTripLength(data);
  }

  // ---------------------------------------------------------------- conversion

  predicate IsImage(c: InboundContent) {
    c.kind == "image"
  }

  predicate BadImage(c: InboundContent) {
    IsImage(c) && ValidateImageContent(c).Some?
  }

  /** The blocks one valid item becomes: a non-empty text, an image, or nothing for other kinds. */
  function BlocksOf(c: InboundContent): seq<Block> {
    if c.kind == "text" then (if c.content != "" then [Text(c.content)] else [])
    else if c.kind == "image" then [Image(c.mediaType, c.dataBase64)]
    else []
  }

  /** The conversion of a prefix, item by item; the first invalid image ends it. */
  function Converted(cs: seq<InboundContent>): Result<seq<Block>, string>
    decreases |cs|
  {
    if cs == [] then Success([])
    else
      var init := Converted(cs[..|cs| - 1]);
      var c := cs[|cs| - 1];
      if init.Failure? then init
      else if BadImage(c) then Failure("invalid image content: " + ValidateImageContent(c).value)
      else Success(init.value + BlocksOf(c))
  }

  /** A failure in a prefix is the failure of every extension. */
  lemma {:induction false} ConvertedFailureSticks(a: seq<InboundContent>, b: seq<InboundContent>)
    requires Converted(a).Failure?
    ensures Converted(a + b) == Converted(a)
    decreases |b|
  {
    if b != [] {
      assert (a + b)[..|a + b| - 1] == a + b[..|b| - 1];
      ConvertedFailureSticks(a, b[..|b| - 1]);
    } else {
      assert a + b == a;
    }
  }

  /** The conversion fails exactly when some item is an invalid image, and then with the first one's error. */
  lemma {:induction false} ConvertedFailsAtFirstBadImage(cs: seq<InboundContent>)
    ensures Converted(cs).Failure? <==> exists i :: 0 <= i < |cs| && BadImage(cs[i])
    ensures Converted(cs).Failure? ==>
      exists i :: 0 <= i < |cs| && BadImage(cs[i]) && (forall j :: 0 <= j < i ==> !BadImage(cs[j])) &&
        Converted(cs).error == "invalid image content: " + ValidateImageContent(cs[i]).value
    decreases |cs|
  {
    if cs != [] {
      var init := cs[..|cs| - 1];
      ConvertedFailsAtFirstBadImage(init);
      if Converted(init).Failure? {
        var i :| 0 <= i < |init| && BadImage(init[i]) && (forall j :: 0 <= j < i ==> !BadImage(init[j])) &&
          Converted(init).error == "invalid image content: " + ValidateImageContent(init[i]).value;
        assert cs[i] == init[i];
        assert forall j :: 0 <= j < i ==> cs[j] == init[j];
      } else {
        assert forall j :: 0 <= j < |init| ==> cs[j] == init[j];
      }
    }
  }

  /** Converting two lists laid end to end, when both are free of invalid images, lays the blocks end to end. */
  lemma {:induction false} ConvertedAppend(a: seq<InboundContent>, b: seq<InboundContent>)
    requires Converted(a).Success? && Converted(b).Success?
    ensures Converted(a + b) == Success(Converted(a).value + Converted(b).value)
    decreases |b|
  {
    if b == [] {
      assert a + b == a;
      assert Converted(b).value == [];
      assert Converted(a).value + [] == Converted(a).value;
    } else {
      var b' := b[..|b| - 1];
      assert (a + b)[..|a + b| - 1] == a + b';
      var c := b[|b| - 1];
      assert (a + b)[|a + b| - 1] == c;
      assert b[..|b| - 1] == b';
      assert Converted(b') == Success(Converted(b).value[..|Converted(b').value|]) &&
             Converted(b).value == Converted(b').value + BlocksOf(c) && !BadImage(c);
      ConvertedAppend(a, b');
      assert Converted(a + b) == Success(Converted(a + b').value + BlocksOf(c));
      assert Converted(a).value + Converted(b').value + BlocksOf(c) == Converted(a).value + (Converted(b').value + BlocksOf(c));
    }
  }

  /** convertToAnthropicContent */
  method ConvertToAnthropicContent(contents: seq<InboundContent>) returns (r: Result<seq<Block>, string>)
    ensures r == Converted(contents)
  {
    var blocks: seq<Block> := [];
    for i := 0 to |contents|
      invariant Converted(contents[..i]) == Success(blocks)
    {
      var content := contents[i];
      assert contents[..i + 1][..i] == contents[..i];
      assert contents[..i + 1][i] == content;
      assert Converted(contents[..i + 1]) ==
        if BadImage(content) then Failure("invalid image content: " + ValidateImageContent(content).value)
        else Success(blocks + BlocksOf(content));
      if content.kind == "text" {
        if content.content != "" {
          blocks := blocks + [Text(content.content)];
        } else {
          assert blocks + BlocksOf(content) == blocks;
        }
      } else if content.kind == "image" {
        var err := ValidateImageContent(content);
        if err.Some? {
          ConvertedFailureSticks(contents[..i + 1], contents[i + 1..]);
          assert contents[..i + 1] + contents[i + 1..] == contents;
          return Failure("invalid image content: " + err.value);
        }
        blocks := blocks + [Image(content.mediaType, content.dataBase64)];
      } else {
        assert blocks + BlocksOf(content) == blocks;
      }
    }
    assert contents[..|contents|] == contents;
    return Success(blocks);
  }
}
