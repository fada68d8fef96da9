# XLess alert pipeline, modelled in Dafny

This project models the core of XLess, a blind-XSS callback collector. When an
XSS payload fires in a victim's browser, it reports back to the collector. The
collector turns each report into a Slack markdown alert. The model covers the
deterministic part of `index.js`:

- the three alert builders: `generate_blind_xss_alert`, `generate_callback_alert`
  and `generate_message_alert`;
- the record enrichment in the `/c` handler, which sets `Screenshot URL` from the
  outcome of an image upload and sets `Remote IP`;
- the `/health` configuration gate and its probe upload;
- the alert inputs of the `/message` and `/` routes.

JavaScript objects with string values are modelled as `Records.Record`. This is a
sequence of key/value pairs in iteration order. `Lookup` (`obj[k]`) and `Assign`
(`obj[k] = v`) act on the first field with that key. So no uniqueness
precondition is needed, and uniqueness is preserved wherever it holds. JavaScript
truthiness of a string that may be `undefined` is `Routes.Truthy`: the value is
present and non-empty. The image host is a function parameter
`upload: string -> UploadOutcome`. Because of that, the contracts can name the
exact image that is sent. They can also show that the result does not depend on
`upload` when no upload happens. `/health` uploads a fixed image, so
`Routes.Health` takes that upload's outcome directly. An outcome is either `Failed(message)` or
`Parsed(error, urlViewer)`. `Failed` covers a rejected request, a `JSON.parse`
that throws, and a property read on a `null` body. `Parsed` is the parsed body's
`error` and `data.url_viewer`.

Modules: `Wrappers` (Option), `Records` (object semantics), `Text`
(`indexOf` / first-occurrence `replace`), `Alerts` (the three builders) and
`Routes` (handler decisions).

Behaviour of `index.js` worth noting:

- The `DOM` value is wrapped as `"\n\nhello " + v + "\n\n"`, including the word
  `hello`.
- In `/c`, an error reported by the image host becomes the literal `NA`. An
  exception becomes its message.
- `/health` reports the host's `error` value itself.
- The `data:image/png;base64,` prefix is stripped by the `/c` handler before the
  upload. Only its first occurrence is removed, wherever it occurs.
- With no API key, or with an empty or missing `Screenshot`, no upload is made and
  `Screenshot URL` stays `""`.
- Field values are not escaped. `Alerts.BlindAlertNotInjective` shows two
  different bodies that produce the same alert.

## Model

| member | source | states |
|---|---|---|
| Records.Lookup | index.js:119 | `obj[k]` is `undefined` exactly when no field is named `k`; otherwise it is the value of a field named `k` |
| Records.Assign | index.js:117 | after `obj[k] = v`, `k` reads `v`; an existing key keeps its place, a missing one is appended at the end; unique keys stay unique |
| Records.AssignOtherKeys | index.js:135 | assigning one key leaves every other key's value unchanged |
| Records.AssignHasKey | index.js:117 | assigning a key adds that key and no other |
| Records.KeyIndexFirst | index.js:119 | `obj[k]` finds the first field named `k` |
| Records.LookupUnique | index.js:32 | in a record with unique keys, each field's value is what `obj[k]` returns |
| Text.IndexFrom | index.js:120 | the result is the first position at or after `from` where the pattern occurs, or none when it never occurs there |
| Text.ReplaceFirst | index.js:120 | with no occurrence the string is unchanged; otherwise exactly the first occurrence is replaced |
| Routes.StripDataUrl | index.js:120 | a screenshot with no occurrence of the data-URL prefix anywhere is sent unchanged; otherwise its first occurrence, at the start or in the middle, is cut out and the rest is sent |
| Routes.StripOnlyFirst | index.js:120 | only the first prefix is removed: a doubled prefix leaves one behind |
| Alerts.DomWrap | index.js:37 | the wrapped DOM value is `\n\nhello `, then the original value intact, then `\n\n` |
| Alerts.RewriteDom | index.js:36-38 | the rewrite keeps every key and position, changes only the `DOM` value, and leaves all other values as they were |
| Alerts.Visible | index.js:33-35 | the reported fields are exactly the fields whose key is not `Screenshot` |
| Alerts.RenderAll | index.js:40-44 | one rendering per field, in the same order |
| Alerts.BlindXssAlert | index.js:31 | every blind-XSS alert begins with `*XSSless: Blind XSS Alert*\n`; an empty body yields exactly that header |
| Alerts.GenerateBlindXssAlert | index.js:30-47 | the source's loop, with its in-place `DOM` rewrite, returns the reference alert and the body with `DOM` rewritten |
| Alerts.FieldsTextAppend | index.js:32 | the fields' text of two concatenated records is the concatenation of their texts, so output order follows key order |
| Alerts.BlindAlertSnocTwo | index.js:32-45 | two fields added at the end of a body add their two entries at the end of the alert, in order |
| Alerts.BlindAlertEntries | index.js:32-45 | the alert is the header followed by one entry per non-`Screenshot` field, in order, each rendered from its rewritten value |
| Alerts.VisibleAppend | index.js:32-35 | skipping `Screenshot` keeps the other fields in their order: filtering two records one after the other gives the concatenation of their filtered fields |
| Alerts.VisibleCount | index.js:33-35 | with unique keys, exactly one field is dropped when `Screenshot` is present and none otherwise |
| Alerts.ScreenshotContributesNothing | index.js:33-35 | removing the `Screenshot` field anywhere in the body leaves the alert unchanged |
| Alerts.OtherFieldRendered | index.js:33-44 | any key other than exactly `Screenshot` adds its rendered entry at its position, so the alert grows |
| Alerts.EmptyValueRendersNone | index.js:40-41 | a field with value `""`, at any position of the body, adds exactly `*k:* \`None\`\n` at that position of the alert |
| Alerts.ValueRendersQuoted | index.js:42-43 | a field with a non-empty value, at any position of the body, adds exactly `*k:* \n\`v\`\n` at that position of the alert |
| Alerts.DomNeverNone | index.js:36-43 | a `DOM` field, at any position of the body, renders with its wrapped value, never as `None`, even when it is empty |
| Alerts.BlindAlertNotInjective | index.js:40-44 | unescaped backticks let one field's value imitate a second field, so two different bodies give the same alert |
| Alerts.JsText | index.js:51 | a missing property renders as `undefined`; a present one renders as its value |
| Alerts.GenerateCallbackAlert | index.js:49-61 | the source's loop over the headers returns the reference callback alert; `data` is only read |
| Alerts.CallbackAlertLines | index.js:50-60 | the callback alert is 3 + (number of headers) lines: header, IP line, URI line, then one bullet per header in order |
| Alerts.CallbackWithoutRemoteIp | index.js:51 | with no `Remote IP` in `data`, the IP line reads `undefined` |
| Alerts.MessageAlert | index.js:64 | the message sits unchanged, as a contiguous block, between `*XSSless: Message Alert*\n` + fence and the closing fence |
| Alerts.MessageRoundTrip | index.js:64 | parsing a message alert recovers the message |
| Alerts.ParseMessageSound | index.js:64 | every text that parses as a message alert is the alert of what it parses to |
| Alerts.MessageAlertInjective | index.js:64 | different messages give different alerts |
| Routes.RemoteIp | index.js:135 | `Remote IP` is a non-empty `x-forwarded-for` header if there is one, else the socket's address |
| Routes.Enrich | index.js:116-135 | the `/c` record holds the decided `Screenshot URL` and the `Remote IP`. `Screenshot URL` is `""` unless a key is configured and `Screenshot` is non-empty. After an upload it is the exception's message, `NA` on a reported error, the viewer URL, or `""`. Every other key keeps its value. The two keys are overwritten in place or appended in that order, and unique keys stay unique |
| Routes.WithScreenshotUrlLookup | index.js:117-133 | after the writes of `Screenshot URL`, that key holds the decided value and every other key reads as before |
| Routes.EnrichIgnoresUploadWhenSkipped | index.js:119 | when no upload is attempted, the record does not depend on the image host at all |
| Routes.EnrichKeys | index.js:117-135 | after both writes, the keys are the body's keys, then `Screenshot URL` if it was missing, then `Remote IP` if it was missing; unique keys stay unique |
| Routes.EnrichOtherKey | index.js:117-135 | any key other than the two injected ones reads as it did in the request body |
| Routes.EnrichAppends | index.js:117-135 | a body with neither injected key gets `Screenshot URL` and then `Remote IP` appended at the end |
| Routes.ScreenshotUrlForFirstAssign | index.js:117-119 | setting `Screenshot URL` to `""` first does not change the upload decision |
| Routes.WithScreenshotUrlAppends | index.js:117-129 | a body without `Screenshot URL` gets it appended at the end, holding the decided value |
| Routes.CollectAlertAppendsInjectedKeys | index.js:116-136 | for a body without the injected keys, the `/c` alert is the body's alert followed by the `Screenshot URL` entry and then the `Remote IP` entry |
| Routes.Health | index.js:149-174 | `/health` answers 400 iff either setting is unset or empty, with both flags and no probe result. Otherwise it answers 200 with the probe upload's error, its viewer URL (absent when empty), or the exception's message |
| Routes.HealthGateSkipsUpload | index.js:150-156 | a failing gate answers the same whatever the probe upload would have returned |
| Routes.MessageRouteAlert | index.js:100-102 | `/message` fences the non-empty `text` query parameter, else the body's `text` (`undefined` when absent) |
| Routes.CallbackRouteAlert | index.js:177-181 | the `/` alert always shows the request's remote IP, whatever the body held, followed by the URI and the header lines |

## Left out

- Express setup, CORS and body-parser middleware, and response headers (index.js:15-28): framework plumbing with no decisions of its own.
- `uploadImage` and every `request.post` to Slack or the image host (index.js:67-88, 109-112, 143-146, 188-191): network I/O. Only an upload's outcome is modelled, as the `upload` parameter. The HTTP replies (`ok\n`, 500, the served `pload.js`) are not modelled.
- `JSON.parse` of the image host's reply and `JSON.stringify` of the Slack payload: library calls. The parsed shape is taken as given.
- Routes.Health: the fixed reference PNG that `/health` uploads (index.js:159-160) is not reproduced. The outcome of uploading it is the `probe` parameter.
- `dotenv` and `process.env` (index.js:9-13): configuration is the `Routes.Config` value. The listening port is not modelled.
- `/examples` and `app.listen` (index.js:90-98, 194-197): static text and process start-up.
- `Object.keys` ordering of integer-like keys, and template-literal coercion of non-string JSON values: keys are taken to be in iteration order already, and values are strings. `/health` reports the host's `error` as a string, though the host may send an object.
- Routes.RemoteIp: the socket's address is a string. The model does not cover its `undefined` case, which is left to the server library.
- Backtick escaping of field values: the source does none, and neither does the model.
