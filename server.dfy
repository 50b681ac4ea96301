/** The application entry point: configuration defaults read from the environment, the
    CORS allow-list, the top-level health route, and the middleware chain that turns a
    route's outcome into the reply the client sees. */
module Server {
  import opened Js
  import opened Registry
  import opened Routes
  import opened ErrorHandler

  /** The process environment: variables that are set, with their string values. */
  type Env = map<string, string>

  /** `process.env[name]`: a string when set, undefined otherwise. */
  function EnvValue(env: Env, name: string): Value {
    if name in env then Str(env[name]) else Undefined
  }

  /** `process.env.PORT || 5000`: the variable's text when it is set and non-empty. */
  function Port(env: Env): (p: Value)
    ensures Truthy(p)
    ensures p == Num(5000) <==> "PORT" !in env || env["PORT"] == ""
    ensures p != Num(5000) ==> p == Str(env["PORT"])
  {
    Or(EnvValue(env, "PORT"), Num(5000))
  }

  /** `process.env.NODE_ENV || 'development'` */
  function NodeEnv(env: Env): (mode: string)
    ensures mode != ""
    ensures "NODE_ENV" in env && env["NODE_ENV"] != "" ==> mode == env["NODE_ENV"]
    ensures "NODE_ENV" !in env || env["NODE_ENV"] == "" ==> mode == "development"
  {
    if "NODE_ENV" in env && env["NODE_ENV"] != "" then env["NODE_ENV"] else "development"
  }

  const DefaultFrontend := "https://your-app.vercel.app"
  const LocalOrigins := ["http://localhost:3000", "http://localhost:5173", "http://localhost:5174"]

  /** `getAllowedOrigins()` */
  function AllowedOrigins(env: Env): (origins: seq<string>)
    ensures NodeEnv(env) == "production" ==>
      origins == [if "FRONTEND_URL" in env && env["FRONTEND_URL"] != "" then env["FRONTEND_URL"] else DefaultFrontend]
    ensures NodeEnv(env) != "production" ==> origins == LocalOrigins
    ensures forall o | o in origins :: o != ""
  {
    if NodeEnv(env) == "production" then
      [Or(EnvValue(env, "FRONTEND_URL"), Str(DefaultFrontend)).s]
    else
      LocalOrigins
  }

  /** Only an explicit NODE_ENV of "production" narrows the allow-list; an unset one
      yields the three local development origins. */
  lemma UnsetModeAllowsLocalOrigins(env: Env)
    requires "NODE_ENV" !in env
    ensures AllowedOrigins(env) == LocalOrigins
    ensures |AllowedOrigins(env)| == 3
  {
  }

  /** `GET /api/health` reports the resolved mode. */
  function ApiHealth(env: Env): (r: Reply)
    ensures r.status == 200 && r.body.Obj?
    ensures r.body.fields.Keys == {"status", "environment"}
    ensures r.body.fields["status"] == Str("Backend server is healthy")
    ensures r.body.fields["environment"] == Str(NodeEnv(env))
  {
    Reply(200, Obj(map["status" := Str("Backend server is healthy"), "environment" := Str(NodeEnv(env))]))
  }

  /** The raw NODE_ENV the error middleware reads (it does not apply the default). */
  function RawNodeEnv(env: Env): Option<string> {
    if "NODE_ENV" in env then Some(env["NODE_ENV"]) else None
  }

  /** A POST to one of the three webhook routes, through the error middleware. */
  function Serve(env: Env, route: Route, body: Value, up: Upstream): (r: Reply)
    ensures RejectsText(body) ==> r.status == 400
    ensures Accepts(body) && up.Delivered? ==> r == Reply(200, up.json)
  {
    match HandlePost(route, body, up).result
    case Respond(reply) => reply
    case Next(err) => HandleError(err, RawNodeEnv(env))
  }

  /** A non-2xx upstream answer becomes a 500 whose `error` is the failure message, with
      the upstream's status text and body text in it, in every mode (production too). */
  lemma RefusedUpstreamIsServerError(env: Env, route: Route, body: Value, statusText: string, bodyText: string)
    requires Accepts(body)
    ensures Serve(env, route, body, Refused(statusText, bodyText)).status == 500
    ensures Serve(env, route, body, Refused(statusText, bodyText)).body.fields["error"]
         == Str(FailureMessage(statusText, bodyText))
  {
    var m := FailureMessage(statusText, bodyText);
    assert |m| > |InvalidWebhookType|;
  }

  /** A truthy `text` that is not a string makes `trim` throw: the request gets a 500 from
      the error middleware, not the 400 of the validation branch. */
  lemma NonStringTextIsServerError(env: Env, route: Route, body: Value, up: Upstream)
    requires !Nullish(body) && Truthy(Member(body, "text")) && !Member(body, "text").Str?
    ensures Serve(env, route, body, up).status == 500
    ensures HandlePost(route, body, up).forwarded == None
  {
  }

  /** A registry miss never takes the middleware's "Invalid webhook type" branch: the
      thrown message carries the name after a colon, so it is a 500, not a 400. */
  lemma RegistryMissIsServerError(webhookType: string, env: Env)
    requires webhookType !in Webhooks
    ensures GetWebhookUrl(webhookType).Err?
    ensures HandleError(GetWebhookUrl(webhookType).error, RawNodeEnv(env)).status == 500
    ensures HandleError(GetWebhookUrl(webhookType).error, RawNodeEnv(env)).body.fields["error"]
         == Str(InvalidTypeMessage(webhookType))
  {
    assert |InvalidTypeMessage(webhookType)| > |InvalidWebhookType|;
  }

  /** With NODE_ENV unset the server runs as "development" (the health route says so),
      yet the error middleware, which reads the raw variable, omits the stack trace. */
  lemma UnsetModeHidesStack(env: Env, err: Error)
    requires "NODE_ENV" !in env
    ensures ApiHealth(env).body.fields["environment"] == Str("development")
    ensures "stack" !in HandleError(err, RawNodeEnv(env)).body.fields
  {
  }
}
