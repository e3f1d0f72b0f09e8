/** What a route handler writes to the Express response: a status and a body. */
module Http {
  import opened Js

  datatype Body =
    /** `res.json(value)` */
    | Payload(json: Json)
    /**
     * `res.json({success: false, error: e})` when `successFalse`, else `res.json({error: e})`,
     * where `e` is an `Error` whose message is `error`.
     */
    | ErrorReply(successFalse: bool, error: string)
    /** `res.send()` with nothing to send */
    | NoContent

  datatype Reply = Reply(status: int, body: Body)

  /** `{[key]: text}`, the one-field objects of `{message: …}` and `{error: …}` replies. */
  function Field(key: string, text: string): (j: Json)
    ensures j.Object? && j.fields.Keys == {key} && j.fields[key] == String(text)
  {
    Object(map[key := String(text)])
  }

  /** `{success: true, data: data}` */
  function Success(data: Json): (j: Json)
    ensures j.Object? && j.fields.Keys == {"success", "data"}
    ensures j.fields["success"] == Bool(true) && j.fields["data"] == data
  {
    Object(map["success" := Bool(true), "data" := data])
  }
}
