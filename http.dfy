/** The HTTP replies the handlers write, as status and body. */
module Http {
  import opened Json

  datatype Body =
    | NoBody
    /** What http.Error writes: the message and a line feed, as text/plain. */
    | PlainText(text: string)
    | JsonBody(value: Json)

  datatype Reply = Reply(status: int, body: Body)

  const StatusOK := 200
  const StatusNoContent := 204
  const StatusBadRequest := 400
  const StatusUnauthorized := 401
  const StatusMethodNotAllowed := 405
  const StatusInternalServerError := 500

  /** http.Error */
  function Error(message: string, status: int): (r: Reply)
    ensures r.status == status && r.body.PlainText? && r.body.text == message + "\n"
  {
    Reply(status, PlainText(message + "\n"))
  }

  /** A 200 reply with a JSON object body. */
  function JsonOK(fields: map<string, Json>): (r: Reply)
    ensures r.status == StatusOK && r.body == JsonBody(JObject(fields))
  {
    Reply(StatusOK, JsonBody(JObject(fields)))
  }
}
