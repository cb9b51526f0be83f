# Device Flow Playground — a Dafny model of its client logic

The playground walks a user through the OAuth 2.0 Device Authorization Grant
(RFC 8628) in four steps: configure, authorize, exchange, complete. Beneath the
browser code sits a small client: it builds the device authorization request
(section 3.1 of RFC 8628), starts the token exchange only on a reply without an
error, polls the token endpoint (sections 3.4 and 3.5) until a terminal reply
and, when tokens arrive, sends one user-info request with a bearer header. Two helpers hold the
rest of the logic: the lookup of the current step in a fixed four-step table,
and the formatting of the sample `curl` command shown beside each request.

Modules:

- `Wrappers` — `Option`, for absent JSON fields and form keys.
- `Text` — `Join` (JavaScript's `Array.prototype.join`) and `Split`, the way a
  server reads a space-delimited `scope` (section 3.3 of RFC 6749), with the
  round trip between them.
- `Form` — a form body before percent-encoding: the ordered key/value pairs
  handed to `URLSearchParams`, and `Lookup`, what a reader of the body sees.
- `DeviceFlow` — `index.js`: request bodies, the exchange gate, the polling
  state machine PENDING → PENDING | SUCCESS | ERROR, the user-info header.
- `Helpers` — `helpers.js`: the step table and its lookup loop, the `curl`
  formatter.

The network is an input. Each reply of `fetch` plus `res.json()` is a value of
`Fetched<T>`: parsed JSON, or `TransportFailure` when either promise rejects.
A polling run consumes a finite sequence of token replies. The timer that
reschedules a poll is recorded as the delay it waits (`PollDelay`):
`interval * 1000` milliseconds taken as a signed 32-bit integer, as the timer
reads it: 0 when the interval is absent (the product is then NaN), and whenever
`interval * 1000` taken modulo 2^32 is 2^31 or more (every negative product
above -2^31 among them); otherwise that residue, so a product outside
`[0, 2^31)` may wrap to any value below 2^31. The configuration that the source reads from form fields is a
`Config` value passed in. The form encoder used by the `curl` formatter is a
function parameter.

JavaScript truthiness is modelled explicitly. `jsonRes.error` counts as an
error when it is present and not the empty string (`IsError`). An object passed
as `data` to the formatter is always truthy, so "no data" is `None`, the
source's `null`. An absent string field (`device_code`, `access_token`) reads
as the text `undefined` where the source interpolates or form-encodes it
(`FieldText`).

The code asks for the same delay after `slow_down` as after
`authorization_pending`. Section 3.5 of RFC 8628 asks a client to add 5 seconds
to the interval after `slow_down`. The model follows the code: every delay of a
run equals `PollDelay(interval)` (`ExpectedRun`, `PendingStep`).

Success is decided by the absence of a truthy `error` alone; an access token is
not required. The code asks for `interval * 1000` milliseconds; the recorded wait is
`PollDelay(interval)`.
A token set without `access_token` still triggers the user-info request, with
the header `Bearer undefined`.

## Model

| member | source | states |
|---|---|---|
| `DeviceFlow.AuthorizationRequestBody` | index.js:14-24 | the keys come in the order `client_id`, `audience`, `scope`; `client_id` is the first key and holds the configured client ID; `audience` is present iff the configured audience is non-empty, and then holds it; `scope` is present iff a scope is selected, and then holds the scopes joined by single spaces; no other key, no key twice |
| `Text.SplitJoin` | index.js:22-24 | the `scope` value read back by splitting at spaces gives the selected scopes, in selection order, when no scope contains a space |
| `DeviceFlow.ExchangeStart` | index.js:34-44 | the exchange starts iff JSON arrived and its `error` is not truthy, and then it starts with that reply as the device authorization; a transport failure starts nothing |
| `DeviceFlow.RequestAuthorization` | index.js:12-45 | the request carries the authorization body above, keys in the order `client_id`, `audience`, `scope`; an erroneous or failed reply starts no exchange, otherwise exactly one, whose run is the reference run over the token replies, whose every request is the token request for that device code, and whose one user-info header is present exactly when the run ends in SUCCESS |
| `DeviceFlow.TokenRequestBody` | index.js:61-65 | the token request has exactly the keys `client_id`, `device_code`, `grant_type`, holding the client ID, the device code of the authorization reply (`undefined` when absent) and `urn:ietf:params:oauth:grant-type:device_code` |
| `DeviceFlow.Classify` | index.js:72-86 | one token reply leads to SUCCESS with that reply iff it has no truthy `error`; to PENDING iff its error is `authorization_pending` or `slow_down`; to ERROR with the provider's error otherwise; and to ERROR on a transport failure |
| `DeviceFlow.FirstTerminal` | index.js:75-82 | the position of the first reply that does not keep polling: every earlier reply is retryable and the one there is not, or every reply is retryable |
| `DeviceFlow.ExpectedRun` | index.js:56-89 | a run makes one call per reply up to and including the first terminal one and ends in that reply's state; if every reply is retryable it stays PENDING after all of them; one delay of `PollDelay(interval)` is waited after each retryable reply and none after the terminal one |
| `DeviceFlow.PollForToken` | index.js:53-90 | the polling loop produces exactly the reference run; the number of token requests equals the number of calls and each is the token request for the device; exactly one user-info request, with the bearer header of the tokens, is made iff the run ends in SUCCESS |
| `DeviceFlow.BearerAuthorization` | index.js:104 | the user-info `Authorization` header is `Bearer ` followed by the access token, or by `undefined` when the token is absent |
| `DeviceFlow.TerminalIgnoresLaterReplies` | index.js:75-86 | SUCCESS and ERROR are absorbing: replies after the terminal one change neither the outcome, nor the call count, nor the delays |
| `DeviceFlow.PendingStep` | index.js:77-81 | from PENDING one more reply makes one more call and either stays PENDING with one more delay of the unchanged `PollDelay(interval)`, `slow_down` included, or ends in that reply's state with no new delay |
| `DeviceFlow.PendingThenTokens` | index.js:75-81 | a pending reply followed by a token set ends in SUCCESS with that token set after two calls and one delay of `PollDelay(interval)` |
| `DeviceFlow.PollDelay` | index.js:78-81 | the wait before a rescheduled poll lies in `[0, 2^31)`; it is 0 for an absent interval; it is `interval * 1000` whenever `0 <= interval * 1000 < 2^31`; any other positive wait is `interval * 1000` wrapped modulo 2^32 |
| `DeviceFlow.LongIntervalWraps` | index.js:80 | an interval of 3000000 s waits 0 ms, 5 s waits 5000 ms, and -1 s waits 0 ms |
| `Helpers.StepIndex` | helpers.js:36-41 | the index of the first step with the name, or the table's length when none has it |
| `Helpers.FindStep` | helpers.js:33-41 | the lookup loop stops at the first step with the name and makes it current; when no step has the name the index runs to the table's length while the current step stays the `configure` entry |
| `Helpers.StepTable` | helpers.js:4-32 | the steps are `configure`, `authorize`, `exchange`, `complete` in that order; only the last three carry a screen |
| `Helpers.StepIndexOfListedName` | helpers.js:4-41 | each listed step is found at its own position, so the step names are distinct |
| `Helpers.UnknownStepIndex` | helpers.js:33-41 | a name outside the table leaves the index at 4 |
| `Helpers.CurlRequest` | helpers.js:181-190 | the command starts with `curl `, followed by `-X POST ` iff the method is `POST`, then by `https://` + tenant + endpoint and the continuation separator (a space, a backslash, a newline, five spaces) |
| `Helpers.HeaderFlagsAppend` | helpers.js:187-189 | every header is rendered as `-H "<header>"`, in input order, separated by single spaces |
| `Helpers.CurlRequestLines` | helpers.js:182-189 | when no input holds a newline, the command has two lines without data (ending right after the header flags) and three with data, the header line then ending in a backslash and the last line being the `-d` flag with the encoded data |

## Left out

- The DOM: `renderScreen`, `renderHeader`, `renderReqRes`, `renderTokenSetResponse`, `setExchangeResponse` (the publication of every token reply), the QR code, highlighting, element lookups, and the event handlers of index.js:117-126. They are display side effects.
- The per-step branches of `renderStep` (helpers.js:45-127), which choose the arguments of the sample `curl` commands and render screens; only the lookup loop is modelled.
- The HTML `description` text of each step; names, screens and titles are modelled.
- `getConfig`, which reads form fields; the configuration is a `Config` value.
- `fetch`, `res.json()` and the network; replies are inputs and a rejection is `TransportFailure`. JSON values of an unexpected type (a numeric `error`, say) are not modelled: `error` is a string when present.
- `setTimeout` and real time; the delay is recorded as data.
- The timestamp of `toLocaleTimeString` and JSON stringification for display.
- `URLSearchParams` percent-encoding; the formatter takes the encoder as a parameter, and the request bodies are modelled before encoding.
- The body of `fetchUserInfo` beyond its bearer header, and the final `complete` rendering; the header of the single user-info request is the `userInfoHeader` result of `PollForToken` and the `userInfoHeader` field of `Exchange`.
- A polling run ends when the finite sequence of replies is exhausted, and then it is still PENDING; the source would keep polling as long as the provider answers.
- `DeviceCodeResponse`: `interval` is an integer number of seconds; a fractional interval, which the source would multiply by 1000 as it is, is not modelled. `expires_in` is an integer too.
- `expires_in` is never checked by the source, so the model has no deadline either.
