/**
  JSON values, and the way Go's encoding/json fills a struct from one.

  Only the decoder's verdict on a text is modelled (`RawJson.parsed`); the
  byte-level grammar is not. A struct field of type string or int is filled
  from a JSON value of the matching kind, left at its zero value by `null`
  or by an absent key, and left at its zero value with a type error for any
  other kind. Decoding carries on past a type error, so a struct may come
  back partly filled together with the first error.
*/
module Json {
  import opened Wrappers
  import Text

  datatype Json =
    | JNull
    | JBool(b: bool)
    | JNumber(n: int)
    | JString(s: string)
    | JArray(items: seq<Json>)
    | JObject(fields: map<string, Json>)

  /** A JSON text together with what the decoder made of it (a value, or its error text). */
  datatype RawJson = RawJson(text: string, parsed: Result<Json, string>)

  /** A decoded field: the value stored, and the type error met on the way, if any. */
  datatype Decoded<T> = Decoded(value: T, error: Option<string>)

  /** The kind word encoding/json uses in its type errors. */
  function KindName(j: Json): string {
    match j
    case JNull => "null"
    case JBool(_) => "bool"
    case JNumber(_) => "number"
    case JString(_) => "string"
    case JArray(_) => "array"
    case JObject(_) => "object"
  }

  const Int64Min: int := -0x8000_0000_0000_0000
  const Int64Max: int := 0x7FFF_FFFF_FFFF_FFFF

  function FieldTypeError(j: Json, owner: string, key: string, goType: string): string {
    "json: cannot unmarshal " + KindName(j) + " into Go struct field " + owner + "." + key + " of type " + goType
  }

  function ValueTypeError(j: Json, goType: string): string {
    "json: cannot unmarshal " + KindName(j) + " into Go value of type " + goType
  }

  /** A field named `key` of struct `owner` whose Go type `goType` has string as its underlying type. */
  function TypedStringField(obj: map<string, Json>, owner: string, key: string, goType: string): (d: Decoded<string>)
    ensures d.error.None? <==> key !in obj || obj[key].JString? || obj[key].JNull?
    ensures d.error.Some? ==> d.error.value == FieldTypeError(obj[key], owner, key, goType)
    ensures d.value == if key in obj && obj[key].JString? then obj[key].s else ""
  {
    if key !in obj then Decoded("", None)
    else match obj[key]
      case JString(s) => Decoded(s, None)
      case JNull => Decoded("", None)
      case other => Decoded("", Some(FieldTypeError(other, owner, key, goType)))
  }

  /** A `string` field named `key` of struct `owner`. */
  function StringField(obj: map<string, Json>, owner: string, key: string): (d: Decoded<string>)
    ensures d.error.None? <==> key !in obj || obj[key].JString? || obj[key].JNull?
    ensures d.value == if key in obj && obj[key].JString? then obj[key].s else ""
  {
    TypedStringField(obj, owner, key, "string")
  }

  predicate FitsInt64(n: int) {
    Int64Min <= n <= Int64Max
  }

  /** A number outside the int64 range: the message quotes the literal, which for an integer is its decimal form. */
  function OverflowError(n: int, owner: string, key: string, goType: string): string {
    "json: cannot unmarshal number " + Text.IntToString(n) + " into Go struct field " + owner + "." + key + " of type " + goType
  }

  function IntValue(j: Json, owner: string, key: string): Decoded<int> {
    match j
    case JNumber(n) =>
      if FitsInt64(n) then Decoded(n, None) else Decoded(0, Some(OverflowError(n, owner, key, "int")))
    case JNull => Decoded(0, None)
    case other => Decoded(0, Some(FieldTypeError(other, owner, key, "int")))
  }

  /** An `int` field (64-bit): numbers outside the int64 range are type errors too. */
  function IntField(obj: map<string, Json>, owner: string, key: string): (d: Decoded<int>)
    ensures d.error.None? <==> key !in obj || obj[key].JNull? || (obj[key].JNumber? && FitsInt64(obj[key].n))
    ensures d.value == if key in obj && obj[key].JNumber? && FitsInt64(obj[key].n) then obj[key].n else 0
    ensures key in obj && obj[key].JNumber? && !FitsInt64(obj[key].n) ==>
      d.error == Some(OverflowError(obj[key].n, owner, key, "int"))
    ensures key in obj && !obj[key].JNumber? && !obj[key].JNull? ==>
      d.error == Some(FieldTypeError(obj[key], owner, key, "int"))
  {
    if key !in obj then Decoded(0, None) else IntValue(obj[key], owner, key)
  }

  /** Elements of a `[]int` field, decoded one by one (a bad element stays 0). */
  function IntItems(items: seq<Json>, owner: string, key: string): (d: Decoded<seq<int>>)
    ensures |d.value| == |items|
    decreases |items|
  {
    if items == [] then Decoded([], None)
    else
      var init := IntItems(items[..|items| - 1], owner, key);
      var last := IntValue(items[|items| - 1], owner, key);
      Decoded(init.value + [last.value], if init.error.Some? then init.error else last.error)
  }

  /** A `[]int` field: an array decodes element-wise, null or absence gives an empty slice. */
  function IntsField(obj: map<string, Json>, owner: string, key: string): (d: Decoded<seq<int>>)
    ensures key in obj && obj[key].JArray? ==> |d.value| == |obj[key].items|
    ensures !(key in obj && obj[key].JArray?) ==> d.value == []
  {
    if key !in obj then Decoded([], None)
    else match obj[key]
      case JArray(items) => IntItems(items, owner, key)
      case JNull => Decoded([], None)
      case other => Decoded([], Some(FieldTypeError(other, owner, key, "[]int")))
  }

  /** The first error of a list of field results, in struct order. */
  function FirstError(errors: seq<Option<string>>): (e: Option<string>)
    ensures e.None? <==> forall i :: 0 <= i < |errors| ==> errors[i].None?
    ensures e.Some? ==> exists i :: 0 <= i < |errors| && errors[i] == e
    decreases |errors|
  {
    if errors == [] then None
    else if errors[0].Some? then errors[0]
    else
      var rest := FirstError(errors[1..]);
      assert forall i :: 1 <= i < |errors| ==> errors[i] == errors[1..][i - 1];
      rest
  }

  function EncodeInts(xs: seq<int>): (j: Json)
    ensures j.JArray? && |j.items| == |xs|
    decreases |xs|
  {
    if xs == [] then JArray([]) else JArray(EncodeInts(xs[..|xs| - 1]).items + [JNumber(xs[|xs| - 1])])
  }

  /** Integers that fit an int64 survive an encode/decode round trip as a `[]int`. */
  lemma {:induction false} IntItemsRoundTrip(xs: seq<int>, owner: string, key: string)
    requires forall i :: 0 <= i < |xs| ==> FitsInt64(xs[i])
    ensures IntItems(EncodeInts(xs).items, owner, key) == Decoded(xs, None)
    decreases |xs|
  {
    if xs != [] {
      var init := xs[..|xs| - 1];
      IntItemsRoundTrip(init, owner, key);
      var items := EncodeInts(xs).items;
      assert items[..|items| - 1] == EncodeInts(init).items;
      assert items[|items| - 1] == JNumber(xs[|xs| - 1]);
      assert init + [xs[|xs| - 1]] == xs;
    }
  }
}
