/** The webhook router: three POST routes that validate `text` and forward it to their
    own upstream channel, the proxy helper they share, and the health route. The
    upstream exchange is an input (`Upstream`); whether the upstream was contacted, and
    with what, is an output (`forwarded`). */
module Routes {
  import opened Js
  import opened Registry

  datatype Route = SocialMediaRoute | PodcastRoute | ThumbnailRoute

  /** The registry channel each route forwards to. */
  function ChannelName(r: Route): (name: string)
    ensures name in Webhooks
  {
    match r
    case SocialMediaRoute => "social-media"
    case PodcastRoute => "podcast"
    case ThumbnailRoute => "thumbnail"
  }

  /** The route-specific hint sent with a 400. */
  function Hint(r: Route): string {
    match r
    case SocialMediaRoute => "Please provide a URL or content text"
    case PodcastRoute => "Please provide a podcast topic"
    case ThumbnailRoute => "Please provide a thumbnail description/prompt"
  }

  /** How the upstream POST turns out: the fetch itself rejects; the upstream answers with
      a non-2xx status (its status text and body text); it answers 2xx with JSON; or it
      answers 2xx with a body that does not parse. */
  datatype Upstream =
    | Unreachable(cause: Error)
    | Refused(statusText: string, bodyText: string)
    | Delivered(json: Value)
    | Undecodable(cause: Error)

  /** One POST to an upstream URL with a JSON payload. */
  datatype Forward = Forward(url: string, payload: Value)

  datatype Proxied = Proxied(forwarded: Option<Forward>, result: Result<Value>)

  function FailureMessage(statusText: string, bodyText: string): string {
    "Webhook request failed: " + statusText + " - " + bodyText
  }

  /** `handleWebhookProxy(webhookType, payload)`: resolve the channel, POST the payload to
      it, and yield the parsed JSON, or the Error the call throws. */
  function HandleWebhookProxy(webhookType: string, payload: Value, up: Upstream): (p: Proxied)
    ensures p.forwarded.Some? <==> webhookType in Webhooks
    ensures p.forwarded.Some? ==> p.forwarded.value == Forward(Webhooks[webhookType].url, payload)
    ensures p.result.Ok? <==> webhookType in Webhooks && up.Delivered?
    ensures p.result.Ok? ==> p.result.value == up.json
    ensures webhookType !in Webhooks ==> p.result == Err(NewError(InvalidTypeMessage(webhookType)))
    ensures webhookType in Webhooks && up.Refused? ==>
      p.result == Err(NewError(FailureMessage(up.statusText, up.bodyText)))
  {
    match GetWebhookUrl(webhookType)
    case Err(e) => Proxied(None, Err(e))
    case Ok(url) =>
      var result := match up
        case Unreachable(cause) => Err(cause)
        case Refused(statusText, bodyText) => Err(NewError(FailureMessage(statusText, bodyText)))
        case Delivered(json) => Ok(json)
        case Undecodable(cause) => Err(cause);
      Proxied(Some(Forward(url, payload)), result)
  }

  /** A route either answers itself or passes an Error to `next`. */
  datatype RouteResult = Respond(reply: Reply) | Next(err: Error)

  datatype Handled = Handled(forwarded: Option<Forward>, result: RouteResult)

  /** The 400 a route sends for a missing or blank `text`. */
  function TextRequired(r: Route): Reply {
    Reply(400, Obj(map["error" := Str("Text is required"), "message" := Str(Hint(r))]))
  }

  /** The payload forwarded upstream: `{ text }` and nothing else. */
  function TextPayload(text: Value): Value {
    Obj(map["text" := text])
  }

  /** The request body passes validation: its `text` is a string with a non-blank character. */
  predicate Accepts(body: Value) {
    !Nullish(body) && Member(body, "text").Str? && !Blank(Member(body, "text").s)
  }

  /** The request body fails validation with a 400: `text` is falsy or a blank string. */
  predicate RejectsText(body: Value) {
    && !Nullish(body)
    && var text := Member(body, "text");
       !Truthy(text) || (text.Str? && Blank(text.s))
  }

  /** The TypeError `text.trim()` raises when `text` is truthy but not a string. */
  const TrimNotAFunction := "text.trim is not a function"

  /** The TypeError destructuring `req.body` raises when the body is null or undefined. */
  function DestructureMessage(body: Value): string {
    "Cannot destructure property 'text' of 'req.body' as it is "
      + (if body.Null? then "null." else "undefined.")
  }

  /** One POST route: validate `text`, then forward `{ text }` to the route's channel and
      answer 200 with the upstream JSON, or hand the thrown Error to `next`. */
  function HandlePost(route: Route, body: Value, up: Upstream): (h: Handled)
    ensures h.forwarded.Some? <==> Accepts(body)
    ensures h.forwarded.Some? ==>
      h.forwarded.value == Forward(Webhooks[ChannelName(route)].url, TextPayload(Member(body, "text")))
    ensures RejectsText(body) ==> h.result == Respond(TextRequired(route))
    ensures Accepts(body) && up.Delivered? ==> h.result == Respond(Reply(200, up.json))
    ensures h.result.Respond? ==> RejectsText(body) || (Accepts(body) && up.Delivered?)
    ensures !Nullish(body) && Truthy(Member(body, "text")) && !Member(body, "text").Str? ==>
      h.result == Next(NewTypeError(TrimNotAFunction))
  {
    if Nullish(body) then
      Handled(None, Next(NewTypeError(DestructureMessage(body))))
    else
      var text := Member(body, "text");
      if !Truthy(text) then
        Handled(None, Respond(TextRequired(route)))
      else if !text.Str? then
        Handled(None, Next(NewTypeError(TrimNotAFunction)))
      else
        TrimEmptyIffBlank(text.s);
        if Trim(text.s) == [] then
          Handled(None, Respond(TextRequired(route)))
        else
          var p := HandleWebhookProxy(ChannelName(route), TextPayload(text), up);
          var result := match p.result
            case Ok(json) => Respond(Reply(200, json))
            case Err(e) => Next(e);
          Handled(p.forwarded, result)
  }

  /** Whatever else the request body holds (a `pin`, say), only `text` is forwarded. */
  lemma OnlyTextForwarded(route: Route, body: Value, up: Upstream)
    requires HandlePost(route, body, up).forwarded.Some?
    ensures HandlePost(route, body, up).forwarded.value.payload.fields.Keys == {"text"}
    ensures "pin" !in HandlePost(route, body, up).forwarded.value.payload.fields
  {
  }

  /** Each route forwards to its own channel: distinct routes reach distinct upstreams. */
  lemma RoutesReachDistinctUpstreams(r1: Route, r2: Route, b1: Value, b2: Value, u1: Upstream, u2: Upstream)
    requires r1 != r2
    requires HandlePost(r1, b1, u1).forwarded.Some? && HandlePost(r2, b2, u2).forwarded.Some?
    ensures HandlePost(r1, b1, u1).forwarded.value.url != HandlePost(r2, b2, u2).forwarded.value.url
  {
    ChannelUrlsDistinct(ChannelName(r1), ChannelName(r2));
  }

  /** `GET /health` always answers 200 with the fixed status text. */
  function WebhookHealth(): (r: Reply)
    ensures r.status == 200 && r.body.Obj?
    ensures r.body.fields == map["status" := Str("Webhook service is healthy")]
  {
    Reply(200, Obj(map["status" := Str("Webhook service is healthy")]))
  }
}
