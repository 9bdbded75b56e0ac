# idea-to-card: the `POST /api/generate` handler in Dafny

idea-to-card turns a user's free text into a set of image cards. The browser
posts the text to `POST /api/generate`. That handler:

- checks the text;
- wraps it in a fixed instruction prompt;
- asks a language-model service once to polish and split it;
- accepts the reply only if it is JSON of the form `{"cards": [{"text": ...}, ...]}`;
- maps every failure to an HTTP status and a fixed message.

This project models that handler as pure Dafny functions and proves what it
guarantees.

Files:

- `wrappers.dfy`: `Option` and `Result`.
- `js_string.dfy` (module `JsString`): JavaScript strings as sequences of
  UTF-16 code units (`length` counts code units), ECMAScript whitespace, and
  `String.prototype.trim`. Also proves that trim is the unique
  "whitespace, core, whitespace" split.
- `js_value.dfy` (module `JsValue`): the values `JSON.parse` returns,
  JavaScript truthiness, and property access. Reading a property of `null`
  throws a `TypeError`.
- `route.dfy` (module `GenerateRoute`): the handler itself:
  - input check `ReadInput`;
  - prompt `BuildPrompt`;
  - first-block extraction `ReplyText`;
  - reply validation `ValidateReply`, with `EveryCardHasText` modelling
    `cards.every(...)`;
  - error classification `ErrorMessage`;
  - `HandleAnswer` and `Post`.
- `route_properties.dfy` (module `GenerateRouteProperties`): the guarantees,
  stated over all request bodies, service answers and parsers.

The two foreign steps are inputs to `Post`:

- `req.json()` becomes a parameter `body: Option<Json>` (`None` when the body
  is not JSON).
- `JSON.parse` becomes a parameter `parse: Text -> Option<Json>`.

The service call is also an input: `answer` is either the reply's content
blocks or a thrown error with its optional numeric `status`. `Post` returns
the response together with the prompts it sent, so "no model call is made"
reads as `prompts == []`.

Behaviour of the code that is easy to misread:

- Length is counted in UTF-16 code units (JavaScript `length`), not in
  characters. A character outside the Basic Multilingual Plane counts twice.
- An empty reply, or one whose first block is not text, makes the handler
  throw an error with no status. It gets the generic service message
  (`UnexpectedReplyShape`).
- A reply is accepted when it is a truthy value whose `cards` is an array of
  cards. Only an object can have such a property (`SuccessExactly`).
- A request body that is JSON `null` gets the invalid-format message, not the
  empty-input message, because reading `null.text` throws inside the `try`
  (`UnreadableBodyRejected`).
- Whitespace-only text longer than 5000 code units gets the empty-input
  message: the blank check comes first (`BlankTextRejected`).
- A missing API key is reported as an invalid key only when the service
  answers with status 401. The handler does no check of its own.

## Model

| member | source | states |
|---|---|---|
| `JsString.LeadingWhitespace` | src/app/api/generate/route.ts:26 | the count of leading whitespace code units `trim` drops: everything before it is whitespace and the unit at it is not |
| `JsString.TrailingWhitespace` | src/app/api/generate/route.ts:26 | the count of trailing whitespace code units `trim` drops, characterised the same way from the end |
| `JsString.Trim` | src/app/api/generate/route.ts:92 | `trim` is empty exactly for whitespace-only strings; otherwise it is the slice between leading and trailing whitespace, with no whitespace at either end |
| `JsString.TrimUnique` | src/app/api/generate/route.ts:92 | splitting a string into whitespace, a core without whitespace at its ends, and whitespace determines `trim`: it returns that core |
| `JsString.TrimIgnoresPadding` | src/app/api/generate/route.ts:92 | whitespace added around a string does not change its `trim` |
| `JsString.TrimIdempotent` | src/app/api/generate/route.ts:92 | trimming a trimmed string changes nothing |
| `JsValue.Truthy` | src/app/api/generate/route.ts:99 | JavaScript `ToBoolean` on a JSON value: `null`, `false`, `0` and `""` are falsy, everything else is truthy |
| `JsValue.GetProperty` | src/app/api/generate/route.ts:21 | `v.key` throws exactly on `null`, and yields a value exactly when `v` is an object with that property |
| `GenerateRoute.ReadInput` | src/app/api/generate/route.ts:18-44 | in plain object terms: a body that is not JSON or is `null` is an invalid format; no string `text` or a whitespace-only one is empty input; a non-blank text over 5000 code units is too long; anything else is accepted, untrimmed |
| `GenerateRoute.BuildPrompt` | src/app/api/generate/route.ts:47-65 | the prompt is the fixed instructions, then a `"""` line, the input verbatim, and a closing `"""` line |
| `GenerateRoute.ReplyText` | src/app/api/generate/route.ts:87-92 | the reply's text is used only when the content is non-empty and its first block has type `"text"`; it is then that block's text |
| `GenerateRoute.EveryCardHasText` | src/app/api/generate/route.ts:101 | `every` succeeds exactly when every element is an object with a string `text`; it throws only if some element is `null` |
| `GenerateRoute.ValidateReply` | src/app/api/generate/route.ts:92-107 | the trimmed reply is accepted exactly when it parses to an object whose `cards` is an array of cards; the accepted value is the parsed value unchanged; a parse failure is `MalformedJson` |
| `GenerateRoute.ErrorMessage` | src/app/api/generate/route.ts:123-130 | a caught error gets the invalid-key message for status 401, the rate-limit message for 429, the generic message for any other status or none; every one of them is sent with status 500 |
| `GenerateRoute.HandleAnswer` | src/app/api/generate/route.ts:87-130 | the response to any service answer is a 200 or a 500 |
| `GenerateRoute.Post` | src/app/api/generate/route.ts:16-132 | at most one prompt is sent; every status is 200, 400 or 500; no prompt is sent exactly when the status is 400 |
| `GenerateRouteProperties.BlankTextRejected` | src/app/api/generate/route.ts:23-32 | a JSON body other than `null` without a non-blank string `text` gets 400 with the empty-input message, and no prompt is sent |
| `GenerateRouteProperties.LengthLimit` | src/app/api/generate/route.ts:34-40 | a non-blank text over 5000 code units gets 400 with the too-long message and no call; at 5000 or fewer its prompt is sent |
| `GenerateRouteProperties.UnreadableBodyRejected` | src/app/api/generate/route.ts:19-44 | a body that is not JSON, or is `null`, gets 400 with the invalid-format message and no call |
| `GenerateRouteProperties.RejectedInputIgnoresService` | src/app/api/generate/route.ts:23-44 | when no prompt is sent the status is 400, and the response is the same for every service answer and parser |
| `GenerateRouteProperties.PromptRoundTrip` | src/app/api/generate/route.ts:61-64 | the input is read back by removing the fixed preamble and closing from its prompt |
| `GenerateRouteProperties.InputMayContainClosingMarker` | src/app/api/generate/route.ts:62-64 | nothing escapes the input: an input that is a newline, a `"""` line and a newline puts a complete closing marker right after the preamble, so the marker lines alone do not delimit the input |
| `GenerateRouteProperties.PromptInputSound` | src/app/api/generate/route.ts:47-65 | any text that `PromptInput` reads back from a prompt rebuilds that same prompt |
| `GenerateRouteProperties.BuildPromptInjective` | src/app/api/generate/route.ts:47-65 | different inputs give different prompts |
| `GenerateRouteProperties.EveryThrowsAtFirstNull` | src/app/api/generate/route.ts:101 | `every` throws exactly when the first element that is not a card is `null` |
| `GenerateRouteProperties.PaddedReplyValidatesAlike` | src/app/api/generate/route.ts:92-96 | whitespace around the reply text never changes the validation result |
| `GenerateRouteProperties.ShapeMismatchRefused` | src/app/api/generate/route.ts:98-107 | a parsed value not of the reply format (`null`, a primitive, an array, a missing or non-array `cards`, a bad or `null` card) is refused as a schema mismatch or a null card |
| `GenerateRouteProperties.SuccessExactly` | src/app/api/generate/route.ts:87-104 | status 200 occurs exactly when the input is accepted, the first block is text, and the trimmed text parses to the reply format; the body is then the parsed value, so card order and extra fields are kept |
| `GenerateRouteProperties.UnexpectedReplyShape` | src/app/api/generate/route.ts:87-130 | an empty reply, or one whose first block is not text, gets 500 with the generic service message, the same as an error without a status |
| `GenerateRouteProperties.UnparsableRepliesLookAlike` | src/app/api/generate/route.ts:108-115 | every failed validation gets the same 500 "cannot parse" response, whatever the reply text or the parser |
| `GenerateRouteProperties.ServiceErrorClassified` | src/app/api/generate/route.ts:121-130 | a thrown error gets 500, with the invalid-key message for 401, the rate-limit message for 429, and the generic message for any other status or none |
| `GenerateRouteProperties.UnparsableOnlyFromValidation` | src/app/api/generate/route.ts:95-130 | the "cannot parse" answer comes only from a text reply that failed validation, never from the error classification |
| `GenerateRouteProperties.ErrorsCarryFixedMessages` | src/app/api/generate/route.ts:16-132 | every non-200 response is one of the fixed messages with its status; no reply text appears in it |

## Left out

- The service call (`route.ts:6-9`, `70-81`) is network I/O through a foreign library. It is the `answer` input. The model id, `max_tokens`, `temperature`, the base URL and the API key from the environment are configuration.
- `req.json()` and `JSON.parse` are foreign parsers. They are the `body` and `parse` inputs, and no JSON grammar is modelled.
- `console.log` and `console.error` only log. The raw reply text goes nowhere else, and the model keeps no log.
- `NextRequest`/`NextResponse` wiring: a response is its status and body. An error body is sent as `{"message": <text>}` (`BodyJson`).
- The SDK always returns `content` as an array, and a text block always has a string `text`. The model relies on both, so the `msg.content &&` guard (`route.ts:88`) is always true here.
- JSON numbers are reals. Only whether a number is zero matters (truthiness). A literal that `JSON.parse` turns into an infinity stands as any non-zero real.
- Objects are maps from property name to value, so property order is not modelled. The body sent back is still the parsed value itself.
- Property access covers own properties only. That is exact for `text` and `cards`, which no JSON value inherits.
- src/app/page.tsx: the React state, the `fetch` round trip, toasts and rendering are browser UI. Its client-side checks repeat the server's.
- src/components/CardTemplate.tsx: the DOM-to-PNG capture and the download link are browser side effects through a foreign library.
