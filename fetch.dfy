/** What the browser forms see of a `fetch` call: the request they send, and how it
    turns out. */
module Fetch {
  import opened Js

  /** The body of an HTTP response as `response.json()` reads it. */
  datatype Body = Parsed(data: Value) | NotJson

  /** The outcome of one `fetch`: it rejects (network failure), or a response arrives
      with a status and a body. */
  datatype Response = NetworkError | Received(status: int, body: Body)

  /** `response.ok` */
  predicate IsOk(status: int) {
    200 <= status <= 299
  }

  /** A JSON POST a form sends: its target URL or path, and its payload. */
  datatype Request = Request(target: string, payload: Value)

  /** `{ text: t }` */
  function TextBody(t: string): (v: Value)
    ensures v.Obj? && v.fields.Keys == {"text"} && v.fields["text"] == Str(t)
  {
    Obj(map["text" := Str(t)])
  }
}
