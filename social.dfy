/** The social-media form, current client and legacy copy. The client collects a URL,
    then a 6-digit PIN in a modal, and posts both through the gateway; the legacy copy
    posts the URL alone, straight to the upstream. */
module Social {
  import opened Js
  import opened Fetch

  /* ---------- PIN input sanitiser ---------- */

  predicate IsDigit(c: char) {
    '0' <= c <= '9'
  }

  predicate AllDigits(s: string) {
    forall i | 0 <= i < |s| :: IsDigit(s[i])
  }

  /** `s.replace(/\D/g, '')`: the ASCII digits of `s`, in order. */
  function StripNonDigits(s: string): (r: string)
    ensures AllDigits(r) && |r| <= |s|
  {
    if s == [] then []
    else (if IsDigit(s[0]) then [s[0]] else []) + StripNonDigits(s[1..])
  }

  /** `.slice(0, 6)` */
  function Take6(s: string): (r: string)
    ensures |r| <= 6 && |r| <= |s| && r == s[..|r|]
    ensures |s| <= 6 ==> r == s
  {
    if |s| <= 6 then s else s[..6]
  }

  /** The value `handlePinChange` stores: at most six digits. */
  function SanitizePin(raw: string): (pin: string)
    ensures AllDigits(pin) && |pin| <= 6
  {
    Take6(StripNonDigits(raw))
  }

  /** Stripping distributes over concatenation: it treats each character on its own. */
  lemma {:induction false} StripNonDigitsConcat(a: string, b: string)
    ensures StripNonDigits(a + b) == StripNonDigits(a) + StripNonDigits(b)
  {
    if a == [] {
      assert a + b == b;
    } else {
      assert (a + b)[1..] == a[1..] + b;
      StripNonDigitsConcat(a[1..], b);
    }
  }

  /** Stripping removes exactly the non-digits: every digit keeps its count, every other
      character is gone. */
  lemma {:induction false} StripNonDigitsCounts(s: string, c: char)
    ensures multiset(StripNonDigits(s))[c] == if IsDigit(c) then multiset(s)[c] else 0
  {
    if s != [] {
      StripNonDigitsCounts(s[1..], c);
      assert s == [s[0]] + s[1..];
    }
  }

  /** A string of digits passes through the stripping unchanged. */
  lemma {:induction false} StripNonDigitsKeepsDigits(s: string)
    requires AllDigits(s)
    ensures StripNonDigits(s) == s
  {
    if s != [] {
      StripNonDigitsKeepsDigits(s[1..]);
      assert s == [s[0]] + s[1..];
    }
  }

  /** A PIN of at most six digits is left as it is. */
  lemma SanitizeKeepsPins(pin: string)
    requires AllDigits(pin) && |pin| <= 6
    ensures SanitizePin(pin) == pin
  {
    StripNonDigitsKeepsDigits(pin);
  }

  /** Sanitising twice is sanitising once. */
  lemma SanitizeIdempotent(raw: string)
    ensures SanitizePin(SanitizePin(raw)) == SanitizePin(raw)
  {
    SanitizeKeepsPins(SanitizePin(raw));
  }

  /* ---------- Messages and the response classification ---------- */

  datatype Tone = Success | Failure

  /** The status line under the form: none, or `{ type, text }` (icons are not modelled). */
  datatype Notice = NoNotice | Notice(tone: Tone, text: string)

  const EnterUrl := "Please enter a URL"
  const EnterPin := "Please enter your PIN"
  const PinTooShort := "PIN must be 6 digits"
  const InvalidPin := "Invalid PIN. Please try again."
  const Posted := "Successfully posted!"
  const Oops := "\U{1F614} Oops! Something went wrong. Please try again."
  const LegacyPosted := "\U{2728} Successfully posted!"
  const ClientEndpoint := "/api/webhook/social-media"
  const LegacyEndpoint := "https://workflow.ccbp.in/webhook-test/effd5adb-e750-4d4b-8fc9-03def3e32aa8"

  /** How the `try` block of `handlePinSubmit` ends: the post went through, the PIN was
      refused (with the text to show), or something threw. */
  datatype Verdict = Accepted | PinRefused(pinError: Value) | Failed

  /** `handlePinSubmit`'s reading of the response. The body is parsed before the status is
      looked at, so a body that is not JSON fails whatever the status. */
  function ClassifyPinResponse(o: Response): (v: Verdict)
    ensures v.Accepted? <==> o.Received? && IsOk(o.status) && o.body.Parsed?
    ensures v.PinRefused? ==>
      && o.Received? && (o.status == 401 || o.status == 403)
      && o.body.Parsed? && !Nullish(o.body.data) && Truthy(v.pinError)
    ensures (o.Received? && (o.status == 401 || o.status == 403) && o.body.Parsed?
             && !Nullish(o.body.data)) ==> v.PinRefused?
  {
    match o
    case NetworkError => Failed
    case Received(status, body) =>
      match body
      case NotJson => Failed
      case Parsed(data) =>
        if IsOk(status) then Accepted
        else if status == 401 || status == 403 then
          if Nullish(data) then Failed  // `data.message` throws
          else PinRefused(Or(Member(data, "message"), Str(InvalidPin)))
        else Failed
  }

  /** A refusal shows the server's `message` when it is truthy, the fixed text otherwise. */
  lemma RefusalText(status: int, fields: map<string, Value>)
    requires status == 401 || status == 403
    ensures "message" in fields && Truthy(fields["message"]) ==>
      ClassifyPinResponse(Received(status, Parsed(Obj(fields)))) == PinRefused(fields["message"])
    ensures !("message" in fields && Truthy(fields["message"])) ==>
      ClassifyPinResponse(Received(status, Parsed(Obj(fields)))) == PinRefused(Str(InvalidPin))
  {
  }

  /** The legacy copy checks the status first and parses after, but the two copies agree
      on which responses count as a successful post. */
  function LegacyPosts(o: Response): (ok: bool)
    ensures ok ==> o.Received? && IsOk(o.status)
  {
    match o
    case NetworkError => false
    case Received(status, body) => IsOk(status) && body.Parsed?
  }

  lemma CopiesAgreeOnSuccess(o: Response)
    ensures LegacyPosts(o) <==> ClassifyPinResponse(o).Accepted?
  {
  }

  /** The PIN-protected client form. */
  class SocialMediaPost {
    var url: string
    var isLoading: bool
    var message: Notice
    var showPinModal: bool
    var pin: string
    var pinError: Value

    /** The PIN is always at most six digits (only the sanitiser and resets write it); a
        PIN error, when present, is truthy. */
    predicate Valid()
      reads this
    {
      && AllDigits(pin) && |pin| <= 6
      && (pinError == Null || Truthy(pinError))
    }

    constructor ()
      ensures Valid()
      ensures url == "" && !isLoading && message == NoNotice && !showPinModal
      ensures pin == "" && pinError == Null
    {
      url, isLoading, message, showPinModal, pin, pinError := "", false, NoNotice, false, "", Null;
    }

    /** Typing in the URL box. */
    method ChangeUrl(text: string)
      requires Valid()
      modifies this`url
      ensures Valid() && url == text
    {
      url := text;
    }

    /** `handleSubmit`: a blank URL gets a message, anything else opens the PIN modal. */
    method HandleSubmit()
      requires Valid()
      modifies this`message, this`pinError, this`showPinModal
      ensures Valid() && pinError == Null
      ensures Blank(url) ==> message == Notice(Failure, EnterUrl) && showPinModal == old(showPinModal)
      ensures !Blank(url) ==> message == NoNotice && showPinModal
    {
      TrimEmptyIffBlank(url);
      message := NoNotice;
      pinError := Null;
      if Trim(url) == [] {
        message := Notice(Failure, EnterUrl);
        return;
      }
      showPinModal := true;
    }

    /** `handlePinChange`: keep only the digits, at most six, and clear the PIN error. */
    method HandlePinChange(raw: string)
      requires Valid()
      modifies this`pin, this`pinError
      ensures Valid() && pin == SanitizePin(raw) && pinError == Null
    {
      pin := SanitizePin(raw);
      pinError := Null;
    }

    /** `handleClosePinModal`: ignored while loading; otherwise close and reset the PIN. */
    method HandleClosePinModal()
      requires Valid()
      modifies this`showPinModal, this`pin, this`pinError
      ensures Valid()
      ensures old(isLoading) ==> showPinModal == old(showPinModal) && pin == old(pin) && pinError == old(pinError)
      ensures !old(isLoading) ==> !showPinModal && pin == "" && pinError == Null
    {
      if !isLoading {
        showPinModal := false;
        pin := "";
        pinError := Null;
      }
    }

    /** `handlePinSubmit`, run to completion against the response `o`. Returns the request
        it sends; a request goes out exactly when the PIN has six digits. */
    method HandlePinSubmit(o: Response) returns (sent: Option<Request>)
      requires Valid()
      modifies this`url, this`isLoading, this`message, this`showPinModal, this`pin, this`pinError
      ensures Valid()
      ensures sent.Some? <==> |old(pin)| == 6
      ensures old(pin) == "" ==>
        && pinError == Str(EnterPin) && url == old(url) && pin == old(pin)
        && message == old(message) && showPinModal == old(showPinModal) && isLoading == old(isLoading)
      ensures 0 < |old(pin)| < 6 ==>
        && pinError == Str(PinTooShort) && url == old(url) && pin == old(pin)
        && message == old(message) && showPinModal == old(showPinModal) && isLoading == old(isLoading)
      ensures |old(pin)| == 6 ==>
        && sent == Some(Request(ClientEndpoint, Obj(map["text" := Str(old(url)), "pin" := Str(old(pin))])))
        && !isLoading
      ensures |old(pin)| == 6 && ClassifyPinResponse(o).Accepted? ==>
        && message == Notice(Success, Posted) && url == "" && pin == "" && !showPinModal && pinError == Null
      ensures |old(pin)| == 6 && ClassifyPinResponse(o).PinRefused? ==>
        && pinError == ClassifyPinResponse(o).pinError && pin == "" && url == old(url)
        && message == old(message) && showPinModal == old(showPinModal)
      ensures |old(pin)| == 6 && ClassifyPinResponse(o).Failed? ==>
        && message == Notice(Failure, Oops) && !showPinModal && pinError == Null
        && url == old(url) && pin == old(pin)
    {
      if pin == "" {
        pinError := Str(EnterPin);
        return None;
      }
      if |pin| < 6 {
        pinError := Str(PinTooShort);
        return None;
      }
      isLoading := true;
      pinError := Null;
      sent := Some(Request(ClientEndpoint, Obj(map["text" := Str(url), "pin" := Str(pin)])));
      match ClassifyPinResponse(o) {
        case PinRefused(text) =>
          pinError := text;
          isLoading := false;
          pin := "";
        case Accepted =>
          message := Notice(Success, Posted);
          url := "";
          pin := "";
          showPinModal := false;
        case Failed =>
          message := Notice(Failure, Oops);
          showPinModal := false;
      }
      isLoading := false;
    }
  }

  /** The legacy form, which has no PIN. */
  class LegacySocialMediaPost {
    var url: string
    var isLoading: bool
    var message: Notice

    constructor ()
      ensures url == "" && !isLoading && message == NoNotice
    {
      url, isLoading, message := "", false, NoNotice;
    }

    /** Typing in the URL box. */
    method ChangeUrl(text: string)
      modifies this`url
      ensures url == text
    {
      url := text;
    }

    /** `handleSubmit` of the legacy copy, run to completion against `o`. */
    method HandleSubmit(o: Response) returns (sent: Option<Request>)
      modifies this`url, this`isLoading, this`message
      ensures Blank(old(url)) ==>
        sent == None && message == Notice(Failure, EnterUrl) && url == old(url) && isLoading == old(isLoading)
      ensures !Blank(old(url)) ==> sent == Some(Request(LegacyEndpoint, TextBody(old(url)))) && !isLoading
      ensures !Blank(old(url)) && LegacyPosts(o) ==> message == Notice(Success, LegacyPosted) && url == ""
      ensures !Blank(old(url)) && !LegacyPosts(o) ==> message == Notice(Failure, Oops) && url == old(url)
    {
      TrimEmptyIffBlank(url);
      message := NoNotice;
      if Trim(url) == [] {
        message := Notice(Failure, EnterUrl);
        return None;
      }
      isLoading := true;
      sent := Some(Request(LegacyEndpoint, TextBody(url)));
      if LegacyPosts(o) {
        message := Notice(Success, LegacyPosted);
        url := "";
      } else {
        message := Notice(Failure, Oops);
      }
      isLoading := false;
    }
  }
}
