# Green API front-end: request planner model

A Dafny model of the request handling in `main.go`, a small Go web front-end
for the Green API WhatsApp gateway. For each browser request the program
decides what to do in a few steps:

- It serves only the root path.
- The `action` form field picks one of four gateway operations: `getSettings`,
  `getStateInstance`, `sendMessage` or `sendFileByUrl`. Any other value shows
  the blank form.
- If the POST body lacks `idInstance` or `apiTokenInstance`, the browser is
  redirected to `/`.
- A chat id that `strconv.Atoi` accepts gets `@c.us` (a direct chat).
  Any other chat id gets `@g.us` (a group).
- The handler builds the gateway URL and the JSON payload, then performs one
  HTTP exchange.
- The response body is shown on the page. If a stage fails, the page is not
  shown; a plain error text is written instead.

The model splits this into pure functions over immutable data:

| module | file | what it holds |
|---|---|---|
| `Wrappers` | wrappers.dfy | `Option` and `Result` |
| `Strconv` | strconv.dfy | Go's `strconv.Atoi` on a 64-bit platform, as a reference predicate `IsInt`/`IntValue` and as Go's scanning algorithm (`Atoi`, `ParseInt`, `ParseUint`) proved equal to it |
| `ChatId` | chat_id.dfy | the `@c.us` / `@g.us` normaliser |
| `Form` | form.dfy | url-encoded values, first value per key |
| `Gateway` | gateway.dfy | operations, URLs, planned calls with payloads, and the stage-ordered exchange |
| `Handlers` | handlers.dfy | request routing (`home`), error texts, the render context `Data`, and `Serve` for the whole request |
| `Scenarios` | scenarios.dfy | concrete requests worked through the model |

The I/O of one exchange is a `Transport` value. It gives the error, if any,
of each stage: JSON encoding, request creation, sending, and reading the body.
It also gives the body when reading succeeds. `Perform` runs the stages in the
program's order and stops at the first failure. The encoding stage runs only
for the two POST operations.

Three behaviours of `main.go` worth noting:

- A failed exchange writes only the error text. The page is not rendered with
  that text in place of the result.
- The `Content-Type: application/json` header is set on the GET requests too.
- A path other than `/` gets a not-found response, which is a sixth outcome
  next to the blank form and the four operations.

## Model

| member | source | states |
|---|---|---|
| `Strconv.Atoi` | main.go:154 | Atoi succeeds exactly when the id is an optional sign followed by one or more decimal digits whose value fits a 64-bit int, and then returns that value. It reports ErrSyntax when there are no digits after the sign, and ErrRange for an all-digit string outside the range. |
| `ChatId.Normalize` | main.go:154-158 | The result is the id followed by five more characters. The suffix is "@c.us" exactly when Atoi accepts the id, and "@g.us" exactly when it does not. |
| `ChatId.NormalizeWithAtoi` | main.go:216-220 | The handler's test as written (call Atoi, pick the suffix by whether it returned an error) gives the same result as `Normalize`. |
| `ChatId.NormalizeInjective` | main.go:154-158 | Two different chat ids never normalise to the same string. |
| `ChatId.NormalizeTwiceAppendsGroup` | main.go:154-158 | Normalising is not idempotent: normalising a normalised id always appends "@g.us" once more. |
| `ChatId.NonDigitIsGroup` | main.go:154-155 | Any character other than a digit after the optional sign makes the id a group. |
| `ChatId.NoDigitsIsGroup` | main.go:154-155 | "", "+" and "-" (no digit at all) get "@g.us". |
| `ChatId.LettersAreGroups` | main.go:154-155 | "abc" and "12a" get "@g.us". |
| `ChatId.NormalizedIdIsGroup` | main.go:154-155 | "123@c.us" becomes "123@c.us@g.us". |
| `ChatId.SignedExamples` | main.go:156-157 | "+5" and "-5" get "@c.us". |
| `ChatId.ShortDigitsAreDirect` | main.go:156-157 | Every string of 1 to 18 digits gets "@c.us". |
| `ChatId.LongDigitsAreGroups` | main.go:154-155 | Twenty or more digits without a leading zero, signed or not, exceed the 64-bit range and get "@g.us". |
| `ChatId.NineteenDigitsAtTheBound` | main.go:154-158 | Among the nineteen-digit strings "9223372036854775807" to "9223372036854775809", only the first (the largest int64) gets "@c.us". |
| `ChatId.PositiveInt64Bound` | main.go:154-158 | "9223372036854775807", the largest int64, gets "@c.us"; "9223372036854775808" overflows int64 and gets "@g.us". |
| `ChatId.MinInt64IsDirect` | main.go:156-157 | "-9223372036854775808", the smallest int64, gets "@c.us". |
| `Gateway.Url` | main.go:61 | For all four operations the URL is the base address, "/waInstance", the id, "/", the operation name, "/" and the token, with id and token inserted verbatim. This includes getStateInstance, whose literal host at line 107 is the same text. |
| `Gateway.UrlDeterminesEndpoint` | main.go:61 | For fixed credentials, different operations have different URLs. |
| `Gateway.PlanCall` | main.go:53-236 | A request is redirected exactly when the POST body's idInstance or apiTokenInstance is empty. Otherwise it is sent to the operation URL with the JSON content type. GET with no payload holds exactly for the two read operations. sendMessage posts exactly {chatId, message}. sendFileByUrl posts exactly {chatId, urlFile, fileName="picture"}, taking its chat id from chatId2. Chat ids are normalised; message and urlFile are passed through unchanged. |
| `Gateway.PlanReadsOnlyItsFields` | main.go:144-147 | The plan depends only on the body fields the operation's handler reads. |
| `Gateway.Perform` | main.go:166-195 | The exchange delivers exactly when no stage fails, and then the body is the one that was read. Otherwise it reports the failing stage with that stage's error, and every earlier stage succeeded. |
| `Gateway.ReadCallIgnoresEncoding` | main.go:63-87 | A call without a payload never fails at the encoding stage, and the outcome of that stage does not matter to it. |
| `Handlers.ParseAction` | main.go:38-50 | An action value selects an operation exactly when it equals "/" followed by that operation's name. Every other value, the empty one included, selects nothing. |
| `Handlers.ParseActionRoundTrip` | main.go:39-46 | Each operation's action value selects exactly that operation. |
| `Handlers.RouteOf` | main.go:33-51 | Not-found holds exactly for paths other than "/". The blank form holds exactly for "/" with an action no operation has. Otherwise the action names the dispatched operation. |
| `Handlers.Conclude` | main.go:84-94 | The page is rendered exactly when the exchange delivered. The page echoes both credentials, and its result is the body verbatim. A failure yields only the error text, and that text can be read back into the failing stage and error. |
| `Handlers.FailureOfErrorText` | main.go:166-194 | The four prefixes "Error encoding JSON payload: ", "Error creating request: ", "Error sending request: " and "Error reading response: " name the stage unambiguously, with the error text after the prefix. |
| `Handlers.Serve` | main.go:33-95 | Whole request. Not-found holds exactly for paths other than "/", and the blank form exactly for unknown actions. A redirect to "/" with status 303 happens exactly for dispatched requests missing a credential in the POST body. Every other dispatched request reaches the gateway and yields either the page or an error text. The page is rendered exactly when no stage of the planned call fails; it echoes the credentials and shows the body that was read. An error text reads back as the first stage of the planned call that failed, with that stage's error. |
| `Handlers.NoExchangeWithoutCredentials` | main.go:53-59 | Without dispatch or without both credentials, the transport is never consulted. |
| `Handlers.ReadOperationsNeverEncode` | main.go:97-133 | For getSettings and getStateInstance the encoding stage plays no part. |
| `Handlers.ActionFromQuery` | main.go:38 | With no action in the body, the query string's action selects the operation. |
| `Handlers.CredentialsOnlyFromBody` | main.go:54-59 | An idInstance given only in the query string does not count, and the request is redirected. |
| `Handlers.EmptyActionShowsForm` | main.go:47-50 | An empty action on "/" shows the blank form. |
| `Scenarios.GetSettingsScenario` | main.go:53-95 | With credentials, getSettings plans one GET to base + "/waInstance" + id + "/getSettings/" + token, and the page shows the body verbatim. |
| `Scenarios.SendMessageScenario` | main.go:143-173 | chatId "79991234567" with message "hi" posts {chatId: "79991234567@c.us", message: "hi"}. |
| `Scenarios.SendFileByUrlScenario` | main.go:205-236 | chatId2 "12345" with urlFile "http://x/y.png" posts {chatId: "12345@c.us", urlFile: "http://x/y.png", fileName: "picture"}. |
| `Scenarios.SendFailureScenario` | main.go:119-124 | A refused connection in getStateInstance yields "Error sending request: connection refused" and no page. |

## Left out

- Server setup is not modelled: `ListenAndServe`, the static file server under `/static/` and the favicon route (main.go:21-31). This is runtime plumbing.
- `http.Client.Do`, reading the response body and closing it are not modelled as I/O. They are the abstract `Transport` input.
- Request creation failures are not derived from the URL's text. `http.NewRequest` rejecting a malformed URL is a `Transport` input like every other stage failure.
- Template parsing and execution are not modelled, and neither are their ignored errors (main.go:48-49, 88, 94). The template file is not part of this model. The page is represented by its render context `Data`, and the blank form by `BlankForm`.
- Byte-level JSON encoding is not modelled, including key order and HTML escaping. The payload is a map from keys to strings.
- Go's form parsing internals are not modelled: url-decoding, repeated keys beyond the first value, multipart bodies, and which methods have their body parsed. A request is its path, its query values and its body values. `FormValue` prefers the body and `PostFormValue` reads only the body.
- The status code and body text of the not-found reply are not modelled. Neither is the implicit 200 status of an error text.
- Concurrency between requests is not modelled, because the handlers share no state.
- Go's `strconv` source is not part of this model. `Strconv.Atoi` follows Go's published algorithm: a fast path for inputs shorter than 19 bytes, and otherwise `ParseInt` with `ParseUint`'s cutoff test and wrapping uint64 addition.
- `Strconv.Atoi`: the fast path is chosen on the number of characters, not UTF-8 bytes. The outcome is the same either way, because a non-ASCII character is never a digit.
