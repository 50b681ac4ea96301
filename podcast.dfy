/** The podcast form, current client and legacy copy: the submit handler's state changes
    and the choice of what the player area shows. The two copies differ in where they
    POST and in how they store an error: the client keeps a plain string for a blank
    topic but a `{ message, icon }` object for a failed request, and renders
    `error.message`; the legacy copy keeps and renders plain strings. */
module Podcast {
  import opened Js
  import opened Fetch

  const TopicError := "Please enter a podcast topic"
  const ClientFailure := "Oops! Something went wrong. Please try again"
  const LegacyFailure := "\U{1F614} Oops! Something went wrong. Please try again"
  const ClientEndpoint := "/api/podcast"
  const LegacyEndpoint := "https://workflow.ccbp.in/webhook-test/aea3b229-b06c-454d-9b8c-4ecfd18c899f"

  /** What the `try` block ends with: the `audioFile` it stores, or None when it throws
      (non-2xx, unparsable or `null` body, no truthy `audioFile`). */
  function FetchAudio(o: Response): (a: Option<Value>)
    ensures a.Some? ==> Truthy(a.value)
    ensures a.Some? ==>
      && o.Received? && IsOk(o.status) && o.body.Parsed? && !Nullish(o.body.data)
      && a.value == Member(o.body.data, "audioFile")
  {
    match o
    case NetworkError => None
    case Received(status, body) =>
      if !IsOk(status) then None
      else
        match body
        case NotJson => None
        case Parsed(data) =>
          if Nullish(data) then None
          else if Truthy(Member(data, "audioFile")) then Some(Member(data, "audioFile"))
          else None
  }

  /** A 2xx JSON object succeeds exactly when its `audioFile` is truthy. */
  lemma AudioFileDecides(status: int, fields: map<string, Value>)
    requires IsOk(status)
    ensures FetchAudio(Received(status, Parsed(Obj(fields)))).Some?
        <==> "audioFile" in fields && Truthy(fields["audioFile"])
  {
  }

  /** What the player area shows, first match wins. */
  datatype Panel = Generating | ErrorPanel(text: Value) | AudioPanel(src: Value) | Placeholder

  /** The client's error state: none, a plain string (blank topic) or a
      `{ message, icon }` object (failed request; the icon is not modelled). */
  datatype ClientError = NoError | Notice(text: string) | Alert(message: string)

  predicate ErrorTruthy(e: ClientError) {
    match e
    case NoError => false
    case Notice(text) => text != ""
    case Alert(_) => true
  }

  /** `error.message` as the client view reads it: a string has no `message` property. */
  function ErrorMessage(e: ClientError): Value {
    match e
    case Alert(message) => Str(message)
    case _ => Undefined
  }

  /** The client's player area: loading, then error, then audio, then placeholder. */
  function ClientPanel(isLoading: bool, error: ClientError, audioUrl: Value): (p: Panel)
    ensures p.Generating? <==> isLoading
    ensures p.ErrorPanel? <==> !isLoading && ErrorTruthy(error)
    ensures p.AudioPanel? <==> !isLoading && !ErrorTruthy(error) && Truthy(audioUrl)
    ensures p.ErrorPanel? ==> p.text == ErrorMessage(error)
    ensures p.AudioPanel? ==> p.src == audioUrl
  {
    if isLoading then Generating
    else if ErrorTruthy(error) then ErrorPanel(ErrorMessage(error))
    else if Truthy(audioUrl) then AudioPanel(audioUrl)
    else Placeholder
  }

  /** The blank-topic error is shown as an error panel with no text, because the view
      reads `message` from a plain string; a failed request shows its message. */
  lemma ClientErrorTexts(audioUrl: Value)
    ensures ClientPanel(false, Notice(TopicError), audioUrl) == ErrorPanel(Undefined)
    ensures ClientPanel(false, Alert(ClientFailure), audioUrl) == ErrorPanel(Str(ClientFailure))
  {
  }

  /** The legacy player area: the same precedence, rendering the error string itself. */
  function LegacyPanel(isLoading: bool, error: Option<string>, audioUrl: Value): (p: Panel)
    ensures p.Generating? <==> isLoading
    ensures p.ErrorPanel? <==> !isLoading && error.Some? && error.value != ""
    ensures p.AudioPanel? <==> !isLoading && !(error.Some? && error.value != "") && Truthy(audioUrl)
    ensures p.ErrorPanel? ==> p.text == Str(error.value)
    ensures p.AudioPanel? ==> p.src == audioUrl
  {
    if isLoading then Generating
    else if error.Some? && error.value != "" then ErrorPanel(Str(error.value))
    else if Truthy(audioUrl) then AudioPanel(audioUrl)
    else Placeholder
  }

  /** The current client's form state. */
  class PodcastGenerator {
    var topic: string
    var isLoading: bool
    var audioUrl: Value
    var error: ClientError

    /** Audio, when present, is truthy; an error and audio never coexist. */
    predicate Valid()
      reads this
    {
      && (audioUrl == Null || Truthy(audioUrl))
      && (error != NoError ==> audioUrl == Null)
    }

    constructor ()
      ensures Valid()
      ensures topic == "" && !isLoading && audioUrl == Null && error == NoError
    {
      topic, isLoading, audioUrl, error := "", false, Null, NoError;
    }

    /** Typing in the topic box. */
    method ChangeTopic(text: string)
      requires Valid()
      modifies this`topic
      ensures Valid() && topic == text
    {
      topic := text;
    }

    /** `handleSubmit`, run to completion against the response `o`. Returns the request
        it sends, None when validation stops it first. */
    method HandleSubmit(o: Response) returns (sent: Option<Request>)
      requires Valid()
      modifies this`topic, this`isLoading, this`audioUrl, this`error
      ensures Valid()
      ensures Blank(old(topic)) ==>
        && sent == None && error == Notice(TopicError) && audioUrl == Null
        && topic == old(topic) && isLoading == old(isLoading)
      ensures !Blank(old(topic)) ==>
        sent == Some(Request(ClientEndpoint, TextBody(old(topic)))) && !isLoading
      ensures !Blank(old(topic)) && FetchAudio(o).Some? ==>
        audioUrl == FetchAudio(o).value && topic == "" && error == NoError
      ensures !Blank(old(topic)) && FetchAudio(o).None? ==>
        audioUrl == Null && topic == old(topic) && error == Alert(ClientFailure)
    {
      TrimEmptyIffBlank(topic);
      error := NoError;
      audioUrl := Null;
      if Trim(topic) == [] {
        error := Notice(TopicError);
        return None;
      }
      isLoading := true;
      sent := Some(Request(ClientEndpoint, TextBody(topic)));
      var found := FetchAudio(o);
      if found.Some? {
        audioUrl := found.value;
        topic := "";
      } else {
        error := Alert(ClientFailure);
      }
      isLoading := false;
    }
  }

  /** The legacy copy's form state. */
  class LegacyPodcastGenerator {
    var topic: string
    var isLoading: bool
    var audioUrl: Value
    var error: Option<string>

    /** Audio, when present, is truthy; an error and audio never coexist. */
    predicate Valid()
      reads this
    {
      && (audioUrl == Null || Truthy(audioUrl))
      && (error.Some? ==> audioUrl == Null)
    }

    constructor ()
      ensures Valid()
      ensures topic == "" && !isLoading && audioUrl == Null && error == None
    {
      topic, isLoading, audioUrl, error := "", false, Null, None;
    }

    /** Typing in the topic box. */
    method ChangeTopic(text: string)
      requires Valid()
      modifies this`topic
      ensures Valid() && topic == text
    {
      topic := text;
    }

    /** `handleSubmit` of the legacy copy, run to completion against `o`. */
    method HandleSubmit(o: Response) returns (sent: Option<Request>)
      requires Valid()
      modifies this`topic, this`isLoading, this`audioUrl, this`error
      ensures Valid()
      ensures Blank(old(topic)) ==>
        && sent == None && error == Some(TopicError) && audioUrl == Null
        && topic == old(topic) && isLoading == old(isLoading)
      ensures !Blank(old(topic)) ==>
        sent == Some(Request(LegacyEndpoint, TextBody(old(topic)))) && !isLoading
      ensures !Blank(old(topic)) && FetchAudio(o).Some? ==>
        audioUrl == FetchAudio(o).value && topic == "" && error == None
      ensures !Blank(old(topic)) && FetchAudio(o).None? ==>
        audioUrl == Null && topic == old(topic) && error == Some(LegacyFailure)
    {
      TrimEmptyIffBlank(topic);
      error := None;
      audioUrl := Null;
      if Trim(topic) == [] {
        error := Some(TopicError);
        return None;
      }
      isLoading := true;
      sent := Some(Request(LegacyEndpoint, TextBody(topic)));
      var found := FetchAudio(o);
      if found.Some? {
        audioUrl := found.value;
        topic := "";
      } else {
        error := Some(LegacyFailure);
      }
      isLoading := false;
    }
  }
}
