/**
  The API-key endpoints: report the stored key, check a key's format and
  probe the provider with it, and store a key. A request body is the JSON
  decoder's verdict on its first value (an empty body is a decode error).
*/
module MiscHandlers {
  import opened Wrappers
  import opened Json
  import opened Http
  import opened Config
  import Text

  /** The body of a key request decoded into its one-field struct: the key, or none when decoding fails. */
  function DecodeKeyRequest(body: Result<Json, string>): (key: Option<string>)
    ensures body.Failure? ==> key.None?
    ensures body == Success(JNull) ==> key == Some("")
    ensures body.Success? && body.value.JObject? ==>
      (key.Some? <==> StringField(body.value.fields, "reqBody", "api_key").error.None?) &&
      (key.Some? ==> key.value == StringField(body.value.fields, "reqBody", "api_key").value)
    ensures body.Success? && !body.value.JObject? && !body.value.JNull? ==> key.None?
  {
    match body
    case Failure(_) => None
    case Success(JNull) => Some("")
    case Success(JObject(m)) =>
      var k := StringField(m, "reqBody", "api_key");
      if k.error.Some? then None else Some(k.value)
    case Success(_) => None
  }

  /** handleGetAPIKey: whether a key is stored and the key; a load error reads as no key. */
  function HandleGetAPIKey(h: Host, files: Files): (r: Reply)
    ensures r.status == StatusOK && r.body.JsonBody? && r.body.value.JObject?
    ensures var key := GetAPIKey(h, files);
      r.body.value.fields == map[
        "has_key" := JBool(key.Success? && key.value != ""),
        "api_key" := JString(if key.Success? then key.value else "")]
  {
    match GetAPIKey(h, files)
    case Failure(_) => JsonOK(map["has_key" := JBool(false), "api_key" := JString("")])
    case Success(key) => JsonOK(map["has_key" := JBool(key != ""), "api_key" := JString(key)])
  }

  const KeyPrefix := "sk-ant-"
  const MinKeyBytes := 20

  /** The one-token request made with a key: the error text it ends with, if any. */
  type KeyProbe = string -> Option<string>

  /** A reply of handleValidateAPIKey, and whether the provider was contacted to produce it. */
  datatype KeyCheck = KeyCheck(reply: Reply, probed: bool)

  function Validity(valid: bool): Reply {
    JsonOK(map["valid" := JBool(valid)])
  }

  /** The format check: the prefix, and at least 20 bytes in UTF-8. */
  predicate WellFormedKey(key: string) {
    Text.HasPrefix(key, KeyPrefix) && Text.Utf8Length(key) >= MinKeyBytes
  }

  /** handleValidateAPIKey */
  function HandleValidateAPIKey(body: Result<Json, string>, probe: KeyProbe): (k: KeyCheck)
    ensures DecodeKeyRequest(body).None? ==> k == KeyCheck(Error("invalid request body", StatusBadRequest), false)
    ensures DecodeKeyRequest(body) == Some("") ==> k == KeyCheck(Error("missing api_key parameter", StatusBadRequest), false)
    ensures k.probed <==> DecodeKeyRequest(body).Some? && WellFormedKey(DecodeKeyRequest(body).value)
    ensures DecodeKeyRequest(body).Some? && DecodeKeyRequest(body).value != "" && !k.probed ==> k.reply == Validity(false)
    ensures k.probed ==> var err := probe(DecodeKeyRequest(body).value);
      k.reply == Validity(err.None? || !Text.Contains(err.value, "401"))
  {
    match DecodeKeyRequest(body)
    case None => KeyCheck(Error("invalid request body", StatusBadRequest), false)
    case Some(key) =>
      if key == "" then KeyCheck(Error("missing api_key parameter", StatusBadRequest), false)
      else if !Text.HasPrefix(key, KeyPrefix) then KeyCheck(Validity(false), false)
      else if Text.Utf8Length(key) < MinKeyBytes then KeyCheck(Validity(false), false)
      else
        var err := probe(key);
        KeyCheck(Validity(err == None || !Text.Contains(err.value, "401")), true)
  }

  /** A well-formed key is reported invalid only when the provider's error mentions 401. */
  lemma {:induction false} ValidAnswerMeaning(key: string, probe: KeyProbe)
    requires WellFormedKey(key)
    ensures HandleValidateAPIKey(Success(JObject(map["api_key" := JString(key)])), probe).reply == Validity(false)
        <==> probe(key).Some? && Text.Contains(probe(key).value, "401")
  {
    var m := map["api_key" := JString(key)];
    assert StringField(m, "reqBody", "api_key").value == key;
    assert key != "";
    assert Validity(true) != Validity(false) by {
      assert Validity(true).body.value.fields["valid"] != Validity(false).body.value.fields["valid"];
    }
  }

  /** An ASCII key of fewer than 20 characters is refused without contacting the provider. */
  lemma ShortKeysNeverProbed(key: string, probe: KeyProbe)
    requires key != "" && Text.IsAscii(key) && |key| < MinKeyBytes
    ensures var k := HandleValidateAPIKey(Success(JObject(map["api_key" := JString(key)])), probe);
      !k.probed && k.reply == Validity(false)
  {
    var m := map["api_key" := JString(key)];
    assert StringField(m, "reqBody", "api_key").value == key;
    Text.AsciiUtf8Length(key);
  }

  /**
    The length check counts bytes, not characters: the prefix and four
    four-byte characters are eleven characters but 23 bytes, and pass.
  */
  lemma {:induction false} ByteLengthCounts()
    ensures WellFormedKey(KeyPrefix + "\U{1F600}\U{1F600}\U{1F600}\U{1F600}")
    ensures |KeyPrefix + "\U{1F600}\U{1F600}\U{1F600}\U{1F600}"| < MinKeyBytes
  {
    var tail := "\U{1F600}\U{1F600}\U{1F600}\U{1F600}";
    var k := KeyPrefix + tail;
    assert k[..|KeyPrefix|] == KeyPrefix;
    Text.AsciiUtf8Length(KeyPrefix);
    Text.Utf8LengthAppend(KeyPrefix, tail);
    var e := "\U{1F600}";
    assert e[..0] == [];
    assert Text.Utf8Length(e) == 4;
    Text.Utf8LengthAppend(e, e);
    Text.Utf8LengthAppend(e + e, e);
    Text.Utf8LengthAppend(e + e + e, e);
    assert tail == e + e + e + e;
  }

  /** handleSetAPIKey */
  method HandleSetAPIKey(fs: FileStore, h: Host, body: Result<Json, string>, fault: SaveFault) returns (r: Reply)
    modifies fs
    ensures DecodeKeyRequest(body).None? ==> r == Error("invalid request body", StatusBadRequest) && fs.files == old(fs.files)
    ensures DecodeKeyRequest(body) == Some("") ==> r == Error("missing api_key parameter", StatusBadRequest) && fs.files == old(fs.files)
    ensures r.status == StatusInternalServerError ==> r == Error("failed to save API key", StatusInternalServerError) && fs.files == old(fs.files)
    ensures r.status != StatusOK ==> fs.files == old(fs.files)
    ensures r.status == StatusOK ==>
      r == JsonOK(map["success" := JBool(true)]) &&
      DecodeKeyRequest(body).Some? &&
      HandleGetAPIKey(h, fs.files) == JsonOK(map["has_key" := JBool(true), "api_key" := JString(DecodeKeyRequest(body).value)])
    ensures DecodeKeyRequest(body).Some? && DecodeKeyRequest(body).value != "" ==>
      (r.status == StatusOK <==> ConfigPath(h).Success? && SaveError(fault).None?)
  {
    var key := DecodeKeyRequest(body);
    if key.None? {
      return Error("invalid request body", StatusBadRequest);
    }
    if key.value == "" {
      return Error("missing api_key parameter", StatusBadRequest);
    }
    var err := fs.SetAPIKey(h, key.value, fault);
    if err.Some? {
      return Error("failed to save API key", StatusInternalServerError);
    }
    return JsonOK(map["success" := JBool(true)]);
  }
}
