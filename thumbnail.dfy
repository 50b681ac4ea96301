/** The thumbnail form: the image-URL extraction that normalises the four response shapes
    of the thumbnail upstream, and the submit handler's state changes. The current client
    and the legacy copy run the same extraction and the same handler; they differ only
    in where they POST. */
module Thumbnail {
  import opened Js
  import opened Fetch

  const BodyResultUrls: seq<string> := ["body", "result", "urls"]
  const ResultUrls: seq<string> := ["result", "urls"]
  const Urls: seq<string> := ["urls"]

  /** `v?.p0?.p1?.…` along `path`. */
  function OptPath(v: Value, path: seq<string>): Value
    decreases |path|
  {
    if path == [] then v else OptPath(OptMember(v, path[0]), path[1..])
  }

  /** `v?.p0?.…?.[0]`: the first entry of the list found along `path`, if any. */
  function FirstUrl(v: Value, path: seq<string>): Value {
    OptIndex0(OptPath(v, path))
  }

  /** `v.p0.….[0]` without `?.`: throws on the first null or undefined it reads through. */
  function StrictFirstUrl(v: Value, path: seq<string>): Completion
    decreases |path|
  {
    if Nullish(v) then Threw
    else if path == [] then Normal(Index0(v))
    else StrictFirstUrl(Member(v, path[0]), path[1..])
  }

  /** If an optional chain ends on a defined value, its start was defined too. */
  lemma {:induction false} ChainStartDefined(v: Value, path: seq<string>)
    requires !Nullish(OptPath(v, path))
    ensures !Nullish(v)
    decreases |path|
  {
    if path != [] {
      ChainStartDefined(OptMember(v, path[0]), path[1..]);
    }
  }

  /** When the optional chain yields a truthy entry, re-reading it without `?.` (as the
      branches of the extraction do) does not throw and yields the same entry. */
  lemma {:induction false} StrictAgreesWhenTruthy(v: Value, path: seq<string>)
    requires Truthy(FirstUrl(v, path))
    ensures StrictFirstUrl(v, path) == Normal(FirstUrl(v, path))
    decreases |path|
  {
    ChainStartDefined(v, path);
    if path != [] {
      StrictAgreesWhenTruthy(Member(v, path[0]), path[1..]);
    }
  }

  /** The first truthy value of `cs`, or its last value when none is truthy: the meaning
      of an `if … else if …` chain whose branches each fire on a truthy candidate, ended
      by `a || b || c`. */
  function FirstTruthy(cs: seq<Value>): (r: Value)
    requires |cs| > 0
    ensures Truthy(r) <==> exists i | 0 <= i < |cs| :: Truthy(cs[i])
    ensures !Truthy(r) ==> r == cs[|cs| - 1]
  {
    if |cs| == 1 || Truthy(cs[0]) then cs[0] else FirstTruthy(cs[1..])
  }

  /** The candidate chosen is the earliest truthy one. */
  lemma {:induction false} FirstTruthyIsEarliest(cs: seq<Value>, i: nat)
    requires i < |cs| && Truthy(cs[i])
    requires forall j | 0 <= j < i :: !Truthy(cs[j])
    ensures FirstTruthy(cs) == cs[i]
  {
    if i > 0 {
      assert forall j | 0 <= j < i - 1 :: cs[1..][j] == cs[j + 1];
      FirstTruthyIsEarliest(cs[1..], i - 1);
    }
  }

  /** Falsy candidates at the front are skipped. */
  lemma {:induction false} FirstTruthySkipsFalsy(cs: seq<Value>, k: nat)
    requires k < |cs|
    requires forall j | 0 <= j < k :: !Truthy(cs[j])
    ensures FirstTruthy(cs) == FirstTruthy(cs[k..])
  {
    if k > 0 {
      assert forall j | 0 <= j < k - 1 :: cs[1..][j] == cs[j + 1];
      FirstTruthySkipsFalsy(cs[1..], k - 1);
      assert cs[1..][k - 1..] == cs[k..];
    }
  }

  /** On three candidates the selection is `a || b || c`. */
  lemma FirstTruthyOfThree(a: Value, b: Value, c: Value)
    ensures FirstTruthy([a, b, c]) == Or(Or(a, b), c)
  {
    assert [a, b, c][1..] == [b, c];
    assert [b, c][1..] == [c];
    if !Truthy(a) {
      assert FirstTruthy([a, b, c]) == FirstTruthy([b, c]);
      if !Truthy(b) {
        assert FirstTruthy([b, c]) == FirstTruthy([c]) == c;
      }
    }
  }

  /** The candidates of a response that is not a non-empty array, in priority order:
      `body.result.urls[0]`, `result.urls[0]`, `urls[0]`, `imageUrl`, `image`, `url`. */
  function Candidates(data: Value): (cs: seq<Value>)
    requires !Nullish(data)
    ensures |cs| == 6
  {
    [ FirstUrl(data, BodyResultUrls), FirstUrl(data, ResultUrls), FirstUrl(data, Urls),
      Member(data, "imageUrl"), Member(data, "image"), Member(data, "url") ]
  }

  /** The extraction chain of the submit handler. A non-empty array is read only at
      `[0]?.body?.result?.urls?.[0]`; any other response is probed in the fixed priority
      order; `null` throws at `data.body`. (For a defined `data`, `data.body?.…` is the
      same as `data?.body?.…`.) */
  function ExtractImageUrl(data: Value): (r: Completion)
    ensures data.Arr? && |data.items| > 0 ==> r == Normal(FirstUrl(data.items[0], BodyResultUrls))
    ensures Nullish(data) ==> r == Threw
    ensures !Nullish(data) && !(data.Arr? && |data.items| > 0) ==> r == Normal(FirstTruthy(Candidates(data)))
  {
    if data.Arr? && |data.items| > 0 then
      Normal(FirstUrl(data.items[0], BodyResultUrls))
    else if Nullish(data) then
      Threw
    else
      var cs := Candidates(data);
      if Truthy(FirstUrl(data, BodyResultUrls)) then
        StrictAgreesWhenTruthy(data, BodyResultUrls);
        FirstTruthyIsEarliest(cs, 0);
        StrictFirstUrl(data, BodyResultUrls)
      else if Truthy(FirstUrl(data, ResultUrls)) then
        StrictAgreesWhenTruthy(data, ResultUrls);
        FirstTruthyIsEarliest(cs, 1);
        StrictFirstUrl(data, ResultUrls)
      else if Truthy(FirstUrl(data, Urls)) then
        StrictAgreesWhenTruthy(data, Urls);
        FirstTruthyIsEarliest(cs, 2);
        StrictFirstUrl(data, Urls)
      else
        FirstTruthySkipsFalsy(cs, 3);
        assert cs[3..] == [Member(data, "imageUrl"), Member(data, "image"), Member(data, "url")];
        FirstTruthyOfThree(Member(data, "imageUrl"), Member(data, "image"), Member(data, "url"));
        Normal(Or(Or(Member(data, "imageUrl"), Member(data, "image")), Member(data, "url")))
  }

  /** What the `try` block of the submit handler ends with: the image URL it stores, or
      None when it throws (non-2xx, unparsable body, `null` body, no truthy URL). */
  function FetchImage(o: Response): (u: Option<Value>)
    ensures u.Some? <==>
      && o.Received? && IsOk(o.status) && o.body.Parsed?
      && ExtractImageUrl(o.body.data).Normal? && Truthy(ExtractImageUrl(o.body.data).v)
    ensures u.Some? ==> u.value == ExtractImageUrl(o.body.data).v
  {
    match o
    case NetworkError => None
    case Received(status, body) =>
      if !IsOk(status) then None
      else
        match body
        case NotJson => None
        case Parsed(data) =>
          match ExtractImageUrl(data)
          case Threw => None
          case Normal(url) => if Truthy(url) then Some(url) else None
  }

  /** For a value that is not a non-empty array, the chain settles on candidate `k` when
      every earlier candidate is falsy and `k` is truthy or the last one. */
  lemma SettlesOnFirstTruthy(data: Value, k: nat)
    requires !Nullish(data) && !(data.Arr? && |data.items| > 0)
    requires k < 6
    requires forall j | 0 <= j < k :: !Truthy(Candidates(data)[j])
    requires Truthy(Candidates(data)[k]) || k == 5
    ensures ExtractImageUrl(data) == Normal(Candidates(data)[k])
  {
    var cs := Candidates(data);
    if Truthy(cs[k]) {
      FirstTruthyIsEarliest(cs, k);
    } else {
      FirstTruthySkipsFalsy(cs, 5);
      assert cs[5..] == [cs[5]];
    }
  }

  /** A response is accepted exactly when some candidate in its shape is truthy. */
  lemma AcceptedIffSomeCandidate(status: int, data: Value)
    requires IsOk(status) && !Nullish(data) && !(data.Arr? && |data.items| > 0)
    ensures FetchImage(Received(status, Parsed(data))).Some?
        <==> exists i | 0 <= i < 6 :: Truthy(Candidates(data)[i])
  {
  }

  /** A JSON `null` body makes `data.body` throw, which the handler reports as a failure. */
  lemma NullBodyFails(status: int)
    ensures FetchImage(Received(status, Parsed(Null))) == None
  {
  }

  /** A non-empty array is read only at its first element's `body.result.urls[0]`: an
      `imageUrl` beside it is not consulted. */
  lemma ArrayReadOnlyAtFirstElement()
    ensures FetchImage(Received(200, Parsed(Arr([Obj(map["imageUrl" := Str("z")])])))) == None
  {
  }

  /** The n8n shape: an array whose first element holds `body.result.urls`. */
  lemma ArrayShape()
    ensures ExtractImageUrl(Arr([Obj(map["body" := Obj(map["result" := Obj(map["urls" := Arr([Str("x")])])])])]))
         == Normal(Str("x"))
  {
  }

  /** An object with `result.urls`. */
  lemma ResultShape()
    ensures ExtractImageUrl(Obj(map["result" := Obj(map["urls" := Arr([Str("y")])])])) == Normal(Str("y"))
  {
    var d := Obj(map["result" := Obj(map["urls" := Arr([Str("y")])])]);
    assert Truthy(FirstUrl(d, ResultUrls));
    assert !Truthy(FirstUrl(d, BodyResultUrls));
  }

  /** An object with a plain `imageUrl`. */
  lemma ImageUrlShape()
    ensures ExtractImageUrl(Obj(map["imageUrl" := Str("z")])) == Normal(Str("z"))
  {
    var d := Obj(map["imageUrl" := Str("z")]);
    assert !Truthy(FirstUrl(d, BodyResultUrls)) && !Truthy(FirstUrl(d, ResultUrls)) && !Truthy(FirstUrl(d, Urls));
  }

  /** An empty `urls[0]` is falsy, so the chain falls through to `url`. */
  lemma FalsyEntryFallsThrough()
    ensures ExtractImageUrl(Obj(map["urls" := Arr([Str("")]), "url" := Str("u")])) == Normal(Str("u"))
  {
    var d := Obj(map["urls" := Arr([Str("")]), "url" := Str("u")]);
    assert !Truthy(FirstUrl(d, BodyResultUrls)) && !Truthy(FirstUrl(d, ResultUrls)) && !Truthy(FirstUrl(d, Urls));
  }

  /** An empty object yields nothing truthy, so the handler reports a failure. */
  lemma EmptyObjectFails(status: int)
    ensures FetchImage(Received(status, Parsed(Obj(map[])))) == None
  {
    var d := Obj(map[]);
    assert !Truthy(FirstUrl(d, BodyResultUrls)) && !Truthy(FirstUrl(d, ResultUrls)) && !Truthy(FirstUrl(d, Urls));
  }

  const DescribeError := "Please describe what your thumbnail should show"
  const GenericError := "Something went wrong. Please try again."
  const ClientEndpoint := "/api/thumbnail"
  const LegacyEndpoint := "http://localhost:5678/webhook-test/b0415874-6381-4d46-8a31-015828436686"

  /** The form's state: the prompt being typed, the loading flag, the generated image
      (Null when there is none) and the error text. */
  class ThumbnailGenerator {
    const endpoint: string
    var prompt: string
    var isLoading: bool
    var imageUrl: Value
    var error: Option<string>

    /** An image, when there is one, is truthy; an error and an image never coexist. */
    predicate Valid()
      reads this
    {
      && (imageUrl == Null || Truthy(imageUrl))
      && (error.Some? ==> imageUrl == Null)
    }

    /** The current client, which posts through the gateway. */
    constructor Client()
      ensures Valid() && endpoint == ClientEndpoint
      ensures prompt == "" && !isLoading && imageUrl == Null && error == None
    {
      endpoint := ClientEndpoint;
      prompt, isLoading, imageUrl, error := "", false, Null, None;
    }

    /** The legacy copy, which posts to the upstream directly. */
    constructor Legacy()
      ensures Valid() && endpoint == LegacyEndpoint
      ensures prompt == "" && !isLoading && imageUrl == Null && error == None
    {
      endpoint := LegacyEndpoint;
      prompt, isLoading, imageUrl, error := "", false, Null, None;
    }

    /** Typing in the prompt box. */
    method ChangePrompt(text: string)
      requires Valid()
      modifies this`prompt
      ensures Valid() && prompt == text
    {
      prompt := text;
    }

    /** "Create Another": drop the image and return to the form. */
    method CreateAnother()
      requires Valid()
      modifies this`imageUrl
      ensures Valid() && imageUrl == Null
    {
      imageUrl := Null;
    }

    /** `handleSubmit`, run to completion against the response `o`. Returns the request
        it sends, None when validation stops it first. */
    method HandleSubmit(o: Response) returns (sent: Option<Request>)
      requires Valid()
      modifies this`prompt, this`isLoading, this`imageUrl, this`error
      ensures Valid()
      ensures Blank(old(prompt)) ==>
        && sent == None && error == Some(DescribeError) && imageUrl == Null
        && prompt == old(prompt) && isLoading == old(isLoading)
      ensures !Blank(old(prompt)) ==>
        sent == Some(Request(endpoint, TextBody(old(prompt)))) && !isLoading
      ensures !Blank(old(prompt)) && FetchImage(o).Some? ==>
        imageUrl == FetchImage(o).value && prompt == "" && error == None
      ensures !Blank(old(prompt)) && FetchImage(o).None? ==>
        imageUrl == Null && prompt == old(prompt) && error == Some(GenericError)
    {
      TrimEmptyIffBlank(prompt);
      error := None;
      imageUrl := Null;
      if Trim(prompt) == [] {
        error := Some(DescribeError);
        return None;
      }
      isLoading := true;
      sent := Some(Request(endpoint, TextBody(prompt)));
      var found := FetchImage(o);
      if found.Some? {
        imageUrl := found.value;
        prompt := "";
      } else {
        error := Some(GenericError);
      }
      isLoading := false;
    }
  }
}
