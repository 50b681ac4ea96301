# AI Studio gateway and forms — a Dafny model

AI Studio is a small Express gateway with three React forms in front of it. Each form
sends a piece of text to an external workflow service:
- the social-media post form sends a URL;
- the podcast form sends a topic;
- the thumbnail form sends an image prompt.

The gateway holds a fixed registry of the three upstream channels. It validates the
`text` of each POST, forwards `{ text }` to that route's channel, and turns thrown
errors into JSON replies. The repository also keeps a legacy copy of each form. The
legacy copies post straight to the upstream services, or to a local workflow runner.

This project models the decision logic of both sides:

- `js.dfy` holds the JavaScript semantics the code relies on:
  - JSON-shaped values and truthiness;
  - `||`;
  - property and index reads, plain and optional;
  - `String.prototype.trim`;
  - Error objects.
- `registry.dfy` holds the channel registry and its lookup.
- `routes.dfy` holds the three POST routes, the proxy helper and the webhook health route. The upstream exchange is an input (`Upstream`). The request that reaches the upstream is an output (`forwarded`).
- `error_handler.dfy` holds the error and not-found middleware.
- `server.dfy` holds the configuration defaults, the CORS allow-list, `/api/health`, and a route composed with the error middleware.
- `fetch.dfy` holds what a form sees of `fetch`: the request it sends and the response outcome.
- `thumbnail.dfy`, `podcast.dfy` and `social.dfy` hold the forms. Each is a class whose fields are the component's React state. Each submit handler is a method run to completion against one response outcome. It is specified through a pure function of that outcome (`FetchImage`, `FetchAudio`, `ClassifyPinResponse`, `LegacyPosts`).

Some of the code's behaviour is easy to misread; the model follows the code:
- No server file checks a PIN. The gateway forwards only `{ text }`, so the client's 401/403 branch is only one possible response outcome.
- A registry miss throws `"Invalid webhook type: <name>"`. The error middleware compares the message with `"Invalid webhook type"` exactly, so a miss becomes a 500, not a 400.
- A non-2xx upstream answer is echoed, status text and body, in the `error` field of the 500. This happens in production too.
- The error middleware reads `NODE_ENV` raw, while the rest of the server defaults it to `"development"`. With the variable unset, the server reports development mode but sends no stack traces.
- The current podcast and thumbnail forms post to `/api/podcast` and `/api/thumbnail`, which are legacy aliases, not the `/api/webhook/...` routes.

## Model

| member | source | states |
|---|---|---|
| `Registry.GetWebhookUrl` | server/src/config/webhooks.js:17-23 | The lookup succeeds exactly for registered names and then yields that channel's URL. Any other name gives an Error whose message is "Invalid webhook type: " followed by the name. |
| `Registry.RegistryShape` | server/src/config/webhooks.js:2-15 | The registry holds exactly the keys social-media, podcast and thumbnail. Each entry has a non-empty url and description. |
| `Registry.LookupIsExact` | server/src/config/webhooks.js:17-21 | A lookup succeeds if and only if the name is one of the three keys verbatim. |
| `Registry.NearMissesFail` | server/src/config/webhooks.js:18-21 | Padded, capitalised or re-punctuated names are misses: there is no trimming or case folding. |
| `Registry.ChannelUrlsDistinct` | server/src/config/webhooks.js:4-12 | No two channels share an upstream URL. |
| `Routes.ChannelName` | server/src/routes/webhooks.js:43-87 | Every route names a channel that the registry holds. |
| `Routes.HandleWebhookProxy` | server/src/routes/webhooks.js:11-26 | The upstream is contacted, with the channel URL and the payload, if and only if the name is registered. The result is the upstream JSON exactly when the upstream delivers. A registry miss yields the lookup's error. A non-2xx answer yields "Webhook request failed: <statusText> - <body>". |
| `Routes.HandlePost` | server/src/routes/webhooks.js:32-92 | The upstream is contacted if and only if `text` is a non-blank string, and then it receives `{ text }` at the route's own channel. A falsy or blank `text` yields the 400 "Text is required" with the route's hint. A delivered upstream yields 200 with its JSON unchanged. A truthy non-string `text` makes `trim` throw and goes to the error middleware. Nothing else yields a reply of the route's own. |
| `Routes.OnlyTextForwarded` | server/src/routes/webhooks.js:34-87 | The forwarded payload has the single key `text`, so a `pin` or any other field is never forwarded. |
| `Routes.RoutesReachDistinctUpstreams` | server/src/routes/webhooks.js:43-87 | Two different routes forward to two different upstream URLs. |
| `Routes.WebhookHealth` | server/src/routes/webhooks.js:98-103 | The webhook health route always answers 200 with the fixed status text. |
| `ErrorHandler.StatusOf` | server/src/middleware/errorHandler.js:21 | The status is `err.status` when it is truthy, 500 otherwise, and it is never 0. |
| `ErrorHandler.HandleError` | server/src/middleware/errorHandler.js:2-25 | The checks run in priority order. The exact message "Invalid webhook type" gives 400 with details. The name ValidationError gives 400 "Validation error" with details. Otherwise the status is `err.status` or 500, `error` is the message or "Internal server error", and a stack is present exactly when NODE_ENV is "development". |
| `ErrorHandler.MessageTestFirst` | server/src/middleware/errorHandler.js:6-18 | When both special cases match, the message test wins. |
| `ErrorHandler.StatusClassification` | server/src/middleware/errorHandler.js:6-24 | A 400 comes exactly from the two special cases or from an error carrying status 400. An error with neither special case and no status of its own is a 500. |
| `ErrorHandler.StackOnlyInDevelopment` | server/src/middleware/errorHandler.js:23 | A stack trace is sent only when NODE_ENV is exactly "development". |
| `ErrorHandler.NotFound` | server/src/middleware/errorHandler.js:28-34 | An unmatched request gets 404 "Route not found" with its path and method echoed back, and no other fields. |
| `Server.Port` | server/src/index.js:10 | The port is the PORT variable when it is set and non-empty, and 5000 otherwise. |
| `Server.NodeEnv` | server/src/index.js:11 | The mode is NODE_ENV when it is set and non-empty, and "development" otherwise. |
| `Server.AllowedOrigins` | server/src/index.js:14-23 | In production the allow-list is the single FRONTEND_URL, or the default Vercel URL when that is unset or empty. In any other mode it is exactly the three localhost origins. No origin is empty. |
| `Server.UnsetModeAllowsLocalOrigins` | server/src/index.js:11-22 | With NODE_ENV unset, the allow-list is the three local development origins. |
| `Server.ApiHealth` | server/src/index.js:44-50 | `/api/health` answers 200 with the status text and the resolved mode. |
| `Server.Serve` | server/src/index.js:52-74 | Through the error middleware, a falsy or blank `text` is a 400. An accepted request with a delivered upstream is a 200 carrying the upstream JSON. |
| `Server.RefusedUpstreamIsServerError` | server/src/routes/webhooks.js:20-23 | A non-2xx upstream answer becomes a 500. Its `error` carries the upstream status text and body, in every mode. |
| `Server.NonStringTextIsServerError` | server/src/routes/webhooks.js:36-47 | A truthy non-string `text` gets a 500, not a 400, and the upstream is not contacted. |
| `Server.RegistryMissIsServerError` | server/src/middleware/errorHandler.js:6-24 | A registry miss is never classified as an invalid webhook type: it is a 500 carrying the lookup's message. |
| `Server.UnsetModeHidesStack` | server/src/middleware/errorHandler.js:23 | With NODE_ENV unset, the health route reports development, yet no error reply carries a stack. |
| `Js.Or` | server/src/index.js:10-18 | JavaScript's logical or is truthy if and only if either operand is, and it yields one of the two operands. |
| `Js.Trim` | server/src/routes/webhooks.js:36 | The result of `trim` is empty or starts and ends with a non-whitespace character. |
| `Js.TrailingWsStops` | server/src/routes/webhooks.js:36 | Trimming the end of a string that starts with a non-whitespace character never removes that character. |
| `Js.TrimIsInfix` | server/src/routes/webhooks.js:36 | `trim` removes only whitespace, and only at the two ends. |
| `Js.TrimEmptyIffBlank` | server/src/routes/webhooks.js:36 | `!s.trim()` holds exactly when every character of `s` is whitespace. |
| `Thumbnail.StrictAgreesWhenTruthy` | client/src/components/ThumbnailGenerator.jsx:50-58 | When an optional chain finds a truthy entry, re-reading it without `?.` does not throw and yields the same entry. |
| `Thumbnail.FirstTruthy` | client/src/components/ThumbnailGenerator.jsx:50-61 | The chosen candidate is truthy if and only if some candidate is. When none is, the last candidate is chosen. |
| `Thumbnail.FirstTruthyIsEarliest` | client/src/components/ThumbnailGenerator.jsx:50-58 | The earliest truthy candidate is the one chosen. |
| `Thumbnail.FirstTruthySkipsFalsy` | client/src/components/ThumbnailGenerator.jsx:50-61 | Falsy candidates at the front are passed over. |
| `Thumbnail.FirstTruthyOfThree` | client/src/components/ThumbnailGenerator.jsx:61 | The fallback on `imageUrl`, then `image`, then `url` is the first truthy of the three, or `url`. |
| `Thumbnail.ExtractImageUrl` | client/src/components/ThumbnailGenerator.jsx:44-62 | A non-empty array is read only at `[0]?.body?.result?.urls?.[0]`. Null or undefined throws. Any other value yields the first truthy candidate in the order body.result.urls[0], result.urls[0], urls[0], imageUrl, image, url. |
| `Thumbnail.FetchImage` | client/src/components/ThumbnailGenerator.jsx:35-70 | A URL is kept exactly when the response is 2xx with a JSON body and the extraction chain ends normally on a truthy value; the kept URL is that value. |
| `Thumbnail.AcceptedIffSomeCandidate` | client/src/components/ThumbnailGenerator.jsx:50-70 | A 2xx response that is not a non-empty array is accepted exactly when one of its six candidates is truthy. |
| `Thumbnail.NullBodyFails` | client/src/components/ThumbnailGenerator.jsx:50 | A JSON `null` body throws at `data.body` and ends in failure. |
| `Thumbnail.ArrayReadOnlyAtFirstElement` | client/src/components/ThumbnailGenerator.jsx:47-49 | An array whose first element lacks `body.result.urls` fails, even when that element has an `imageUrl`. |
| `Thumbnail.ArrayShape` | src/components/ThumbnailGenerator.jsx:44-46 | The n8n array shape yields `data[0].body.result.urls[0]`. |
| `Thumbnail.SettlesOnFirstTruthy` | client/src/components/ThumbnailGenerator.jsx:50-61 | For a response that is not a non-empty array, when every earlier candidate is falsy the chain yields candidate k if it is truthy, and yields `url` whatever its value when all earlier ones are falsy. |
| `Thumbnail.ResultShape` | src/components/ThumbnailGenerator.jsx:50-52 | Example: `{ result: { urls: ["y"] } }` yields "y". |
| `Thumbnail.ImageUrlShape` | src/components/ThumbnailGenerator.jsx:56-58 | Example: `{ imageUrl: "z" }` yields "z". |
| `Thumbnail.FalsyEntryFallsThrough` | client/src/components/ThumbnailGenerator.jsx:56-61 | Example: in `{ urls: [""], url: "u" }` the empty `urls[0]` is falsy, so the chain falls through to "u". |
| `Thumbnail.EmptyObjectFails` | client/src/components/ThumbnailGenerator.jsx:59-70 | An empty object yields no URL, so the submission fails. |
| `Thumbnail.ThumbnailGenerator.Client` | client/src/components/ThumbnailGenerator.jsx:6-11 | The current client starts with an empty prompt, no image, no error and no loading, and posts through the gateway. |
| `Thumbnail.ThumbnailGenerator.Legacy` | src/components/ThumbnailGenerator.jsx:5-8 | The legacy copy starts in the same state and posts to the local workflow runner. |
| `Thumbnail.ThumbnailGenerator.ChangePrompt` | client/src/components/ThumbnailGenerator.jsx:109 | Typing replaces the prompt. |
| `Thumbnail.ThumbnailGenerator.CreateAnother` | client/src/components/ThumbnailGenerator.jsx:141 | "Create Another" drops the image. |
| `Thumbnail.ThumbnailGenerator.HandleSubmit` | client/src/components/ThumbnailGenerator.jsx:13-78 | A blank prompt sets the describe error, clears the image and sends nothing. Otherwise `{ text: prompt }` goes to the form's endpoint and loading ends false. On a truthy extracted URL the image is stored and the prompt cleared. Otherwise the generic error is set, no image is kept and the prompt is kept. An error and an image never coexist. |
| `Podcast.FetchAudio` | client/src/components/PodcastGenerator.jsx:36-48 | Audio is kept only from a 2xx response with a non-null JSON body. It is that body's `audioFile`, and it is truthy. |
| `Podcast.AudioFileDecides` | src/components/PodcastGenerator.jsx:33-45 | A 2xx JSON object succeeds if and only if its `audioFile` is truthy. |
| `Podcast.ClientPanel` | client/src/components/PodcastGenerator.jsx:102-126 | The player area shows the first that applies: generating while loading, then the error, then the audio, then the placeholder. The error panel shows `error.message`. |
| `Podcast.ClientErrorTexts` | client/src/components/PodcastGenerator.jsx:21-111 | The blank-topic error is a plain string, so its panel shows no text. A failed request shows its message. |
| `Podcast.LegacyPanel` | src/components/PodcastGenerator.jsx:93-113 | The same precedence, with the error string rendered itself. |
| `Podcast.PodcastGenerator.constructor` | client/src/components/PodcastGenerator.jsx:6-9 | The form starts empty, with no audio, no error and no loading. |
| `Podcast.PodcastGenerator.ChangeTopic` | client/src/components/PodcastGenerator.jsx:77 | Typing replaces the topic. |
| `Podcast.PodcastGenerator.HandleSubmit` | client/src/components/PodcastGenerator.jsx:13-58 | A blank topic sets the topic error, clears the audio and sends nothing. Otherwise `{ text: topic }` goes to `/api/podcast` and loading ends false. A truthy `audioFile` is stored and the topic cleared. Any failure stores the `{ message }` error, keeps no audio and keeps the topic. |
| `Podcast.LegacyPodcastGenerator.constructor` | src/components/PodcastGenerator.jsx:5-8 | The legacy form starts in the same state. |
| `Podcast.LegacyPodcastGenerator.ChangeTopic` | src/components/PodcastGenerator.jsx:71 | Typing replaces the topic. |
| `Podcast.LegacyPodcastGenerator.HandleSubmit` | src/components/PodcastGenerator.jsx:10-55 | The same transitions, posting to the podcast upstream directly and storing the fixed failure string on any failure. |
| `Social.StripNonDigits` | client/src/components/SocialMediaPost.jsx:97 | Removing non-digits leaves only ASCII digits and never lengthens the string. |
| `Social.Take6` | client/src/components/SocialMediaPost.jsx:97 | `slice(0, 6)` yields a prefix of at most six characters, and the whole string when it is short. |
| `Social.SanitizePin` | client/src/components/SocialMediaPost.jsx:97 | The sanitised PIN is all digits with at most six of them. |
| `Social.StripNonDigitsConcat` | client/src/components/SocialMediaPost.jsx:97 | Stripping treats each character on its own: it distributes over concatenation. |
| `Social.StripNonDigitsCounts` | client/src/components/SocialMediaPost.jsx:97 | Every digit keeps its number of occurrences, and every other character is removed. |
| `Social.StripNonDigitsKeepsDigits` | client/src/components/SocialMediaPost.jsx:97 | A string of digits is unchanged by stripping. |
| `Social.SanitizeKeepsPins` | client/src/components/SocialMediaPost.jsx:97 | A PIN of at most six digits is left as it is. |
| `Social.SanitizeIdempotent` | client/src/components/SocialMediaPost.jsx:97 | Sanitising twice is sanitising once. |
| `Social.ClassifyPinResponse` | client/src/components/SocialMediaPost.jsx:59-71 | A post is accepted exactly on a 2xx response with a JSON body, because the body is parsed before the status is read. A 401 or 403 with a non-null JSON body is a PIN refusal carrying a truthy text. Everything else fails. |
| `Social.RefusalText` | client/src/components/SocialMediaPost.jsx:63-65 | A refusal shows the server's `message` when it is truthy, and "Invalid PIN. Please try again." otherwise. |
| `Social.LegacyPosts` | src/components/SocialMediaPost.jsx:32-38 | The legacy copy succeeds only on a 2xx response. |
| `Social.CopiesAgreeOnSuccess` | src/components/SocialMediaPost.jsx:34-38 | The legacy copy checks the status before parsing, yet both copies accept exactly the same responses. |
| `Social.SocialMediaPost.constructor` | client/src/components/SocialMediaPost.jsx:6-11 | The form starts with no URL, message, modal, PIN, PIN error or loading. |
| `Social.SocialMediaPost.ChangeUrl` | client/src/components/SocialMediaPost.jsx:128 | Typing replaces the URL. |
| `Social.SocialMediaPost.HandleSubmit` | client/src/components/SocialMediaPost.jsx:15-27 | The PIN error is always cleared. A blank URL sets "Please enter a URL" and leaves the modal as it was. Any other URL clears the message and opens the PIN modal. |
| `Social.SocialMediaPost.HandlePinChange` | client/src/components/SocialMediaPost.jsx:96-100 | Every edit stores the sanitised PIN and clears the PIN error. |
| `Social.SocialMediaPost.HandleClosePinModal` | client/src/components/SocialMediaPost.jsx:102-108 | While loading, closing changes nothing. Otherwise it closes the modal and clears the PIN and the PIN error. |
| `Social.SocialMediaPost.HandlePinSubmit` | client/src/components/SocialMediaPost.jsx:29-94 | A request `{ text, pin }` goes out exactly when the PIN has six digits. An empty or short PIN sets its PIN error and changes nothing else. A refusal sets the PIN error, clears the PIN and keeps the modal open. Success sets "Successfully posted!", clears the URL and PIN and closes the modal. Any other failure sets the error message and closes the modal. Loading ends false, and the PIN stays at most six digits. |
| `Social.LegacySocialMediaPost.constructor` | src/components/SocialMediaPost.jsx:5-7 | The legacy form starts empty. |
| `Social.LegacySocialMediaPost.ChangeUrl` | src/components/SocialMediaPost.jsx:73 | Typing replaces the URL. |
| `Social.LegacySocialMediaPost.HandleSubmit` | src/components/SocialMediaPost.jsx:9-57 | A blank URL sets "Please enter a URL" and sends nothing. Otherwise exactly `{ text: url }`, with no PIN, goes to the upstream and loading ends false. Success sets the sparkle message and clears the URL. Failure sets the error message and keeps the URL. |

## Left out

- Network I/O. The server's `node-fetch` call and the forms' `fetch` are replaced by an outcome datatype given to each handler (`Upstream`, `Fetch.Response`). JSON parsing, HTTP status texts and the upstream services themselves are not modelled.
- Timing. The 2000 ms minimum loading delay of the social forms and every async interleaving are left out. Each submit is one atomic transition, so intermediate states, such as `isLoading` being true while a request is in flight, are not observable in the model.
- The legacy alias routes in server/src/index.js:55-68. Whether a rewritten `req.url` reaches the router depends on Express's matching, which is library behaviour. The model does not claim that the aliases work, including the `/api/podcast` and `/api/thumbnail` paths the current podcast and thumbnail forms use.
- Express and process plumbing: the cors and JSON body middleware set-up, `app.listen`, signal handlers, development request logging, and the clock-based `timestamp` fields of both health replies.
- Presentation: JSX, CSS, icons (the `icon` fields of messages), `handleDownload`'s DOM manipulation, and tab switching in the App components.
- Property reads. Only an object's own properties are seen, and the registry is a finite map. Inherited keys such as `toString` are not modelled.
- The base URL of the current client's requests (`VITE_API_URL`, or `http://localhost:5000` when unset) is not modelled: each client endpoint is the path alone.
- `Js.Index0`: indexing a string yields its first `char`; JavaScript yields the first UTF-16 code unit, which differs for characters outside the Basic Multilingual Plane.
- Numbers are integers. `NaN` and fractional values are not modelled.
- `Js.NewError`: the stack trace is reduced to its first line.
- `Routes.HandlePost`: the text of the engine's TypeErrors (`text.trim is not a function`, the destructuring failure) follows V8's wording.
- Whitespace for `trim`: the set is ECMAScript's WhiteSpace and LineTerminator code points, with no Unicode category lookup beyond that list.
- `Server.Serve`: its contract states only the validation and success outcomes. The error outcomes are stated by the lemmas about it and by `ErrorHandler.HandleError`.
- The registry is never written: it is a constant, and the lookup is a pure function of it.
