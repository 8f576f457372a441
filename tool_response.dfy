/**
 * What a tool hands back to the MCP client: a value printed as the text
 * content, marked as an error when the tool failed. A remote call either
 * answers or throws; whatever a tool throws is caught and reported.
 */
module ToolResponses {
  import opened JsValue

  /** What a remote call did: answered with a value, or threw one. */
  datatype Outcome = Answered(response: Value) | Threw(error: Value)

  /** The tool's answer: the value printed (as indented JSON) as its text, and whether it is an error. */
  datatype ToolResponse = ToolResponse(body: Value, isError: bool)

  const UnknownError := "Error desconocido"

  /**
   * The body most tools' catch blocks report: the error's message when it
   * is an `Error` (otherwise "Error desconocido"), and the thrown value.
   */
  function ErrorBody(e: Value): (r: Value)
    ensures r.Obj? && Get(r, "details") == e
    ensures e.Obj? && e.kind.ErrorObject? ==> Get(r, "error") == Get(e, "message")
    ensures !(e.Obj? && e.kind.ErrorObject?) ==> Get(r, "error") == Str(UnknownError)
  {
    var msg := if e.Obj? && e.kind.ErrorObject? then Get(e, "message") else Str(UnknownError);
    var props := [Property("error", msg), Property("details", e)];
    LookupAt(props, 0);
    LookupAt(props, 1);
    Record(props)
  }
}
