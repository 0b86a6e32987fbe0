/** The dictionaries the tool adapters hand back to the agents, as JSON-like
    values, and the status convention every tool result follows. */
module Json {
  import opened Wrappers

  datatype Value =
    | Null
    | Str(s: string)
    | Int(i: int)
    | Arr(items: seq<Value>)
    | Obj(fields: map<string, Value>)

  /** A tool's reply: the top-level dictionary. */
  type ToolResult = map<string, Value>

  /** A Python `Optional[str]` field: `None` becomes `null`. */
  function OptStr(o: Option<string>): Value {
    match o
    case Some(s) => Str(s)
    case None => Null
  }

  predicate IsSuccess(r: ToolResult) {
    "status" in r && r["status"] == Str("success")
  }

  /** An error reply carries the raw error text and a readable message. */
  predicate IsError(r: ToolResult) {
    && "status" in r && r["status"] == Str("error")
    && "error_message" in r && r["error_message"].Str?
    && "message" in r && r["message"].Str?
  }

  /** The structured-result contract: an explicit success or error status. */
  predicate WellFormed(r: ToolResult) {
    IsSuccess(r) || IsError(r)
  }

  /** The shape every `except` branch of the tools returns: `error` is
      `str(e)` and the message is `prefix` followed by it. */
  function ErrorResult(error: string, prefix: string): (r: ToolResult)
    ensures IsError(r) && !IsSuccess(r)
    ensures r["error_message"] == Str(error)
    ensures r["message"] == Str(prefix + error)
    ensures r.Keys == {"status", "error_message", "message"}
  {
    map["status" := Str("error"), "error_message" := Str(error), "message" := Str(prefix + error)]
  }
}
