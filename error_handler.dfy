/** The Express error and not-found middleware: a priority-ordered classification of a
    thrown Error into an HTTP status and JSON body. */
module ErrorHandler {
  import opened Js

  const InvalidWebhookType := "Invalid webhook type"

  /** `err.status || 500` */
  function StatusOf(err: Error): (s: int)
    ensures s != 0
    ensures err.status.Some? && err.status.value != 0 ==> s == err.status.value
    ensures err.status.None? || err.status == Some(0) ==> s == 500
  {
    if err.status.Some? && err.status.value != 0 then err.status.value else 500
  }

  /** The reply the error middleware sends for `err`. `nodeEnv` is the raw value of the
      NODE_ENV environment variable (None when unset); the stack trace is added only when
      it is exactly "development". */
  function HandleError(err: Error, nodeEnv: Option<string>): (r: Reply)
    ensures r.body.Obj? && "error" in r.body.fields && Truthy(r.body.fields["error"])
    ensures err.message == InvalidWebhookType ==>
      r == Reply(400, Obj(map["error" := Str(InvalidWebhookType), "details" := Str(err.message)]))
    ensures err.message != InvalidWebhookType && err.name == "ValidationError" ==>
      r == Reply(400, Obj(map["error" := Str("Validation error"), "details" := Str(err.message)]))
    ensures err.message != InvalidWebhookType && err.name != "ValidationError" ==>
      && r.status == StatusOf(err)
      && r.body.fields["error"] == (if err.message != "" then Str(err.message) else Str("Internal server error"))
      && ("stack" in r.body.fields <==> nodeEnv == Some("development"))
      && "details" !in r.body.fields
  {
    if err.message == InvalidWebhookType then
      Reply(400, Obj(map["error" := Str(InvalidWebhookType), "details" := Str(err.message)]))
    else if err.name == "ValidationError" then
      Reply(400, Obj(map["error" := Str("Validation error"), "details" := Str(err.message)]))
    else
      var error := if err.message != "" then err.message else "Internal server error";
      var stack := if nodeEnv == Some("development") then map["stack" := Str(err.stack)] else map[];
      Reply(StatusOf(err), Obj(map["error" := Str(error)] + stack))
  }

  /** The message test comes before the name test: an error that matches both is reported
      as an invalid webhook type. */
  lemma MessageTestFirst(err: Error, nodeEnv: Option<string>)
    requires err.message == InvalidWebhookType && err.name == "ValidationError"
    ensures HandleError(err, nodeEnv).body.fields["error"] == Str(InvalidWebhookType)
  {
  }

  /** A 400 comes from one of the two special cases or from an error that carries status
      400 itself; every other error without a status of its own is a 500. */
  lemma StatusClassification(err: Error, nodeEnv: Option<string>)
    ensures HandleError(err, nodeEnv).status == 400
        <==> err.message == InvalidWebhookType || err.name == "ValidationError" || err.status == Some(400)
    ensures (err.message != InvalidWebhookType && err.name != "ValidationError"
             && (err.status == None || err.status == Some(0))) ==> HandleError(err, nodeEnv).status == 500
  {
  }

  /** Only the development setting exposes the stack trace; the special cases never do. */
  lemma StackOnlyInDevelopment(err: Error, nodeEnv: Option<string>)
    ensures "stack" in HandleError(err, nodeEnv).body.fields ==> nodeEnv == Some("development")
  {
  }

  /** The reply for a request that no route matched echoes its path and method. */
  function NotFound(path: string, httpMethod: string): (r: Reply)
    ensures r.status == 404
    ensures r.body.Obj? && r.body.fields.Keys == {"error", "path", "method"}
    ensures r.body.fields["path"] == Str(path) && r.body.fields["method"] == Str(httpMethod)
    ensures r.body.fields["error"] == Str("Route not found")
  {
    Reply(404, Obj(map["error" := Str("Route not found"), "path" := Str(path), "method" := Str(httpMethod)]))
  }
}
