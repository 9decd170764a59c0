# Ticket Tailor events proxy — Dafny model

This project models the serverless HTTP handler `api/ticket-tailor-events.js`. The handler proxies
Ticket Tailor's event listing for a calendar widget. It does the following, in order:

1. It answers a CORS preflight (`OPTIONS`) with 200 and no body.
2. It refuses every method other than `GET` with 405.
3. It refuses with 500 when the `TT_API_KEY` key is unset or empty.
4. It sends one authenticated request to `https://api.tickettailor.com/v1/events`.
5. It turns a non-ok upstream status into a 500 "Ticket Tailor API error".
6. It reduces the parsed body, either a bare array or an object with a `data` field, to one list.
7. It maps each raw event to `{id, name, starts_at, url}` using JavaScript `||` fallback chains.
8. When anything throws, it answers with a 500 "Server error".

The model is organised as follows:

- `wrappers.dfy` (`Wrappers`): `Option` and `Result`.
- `decimal.dfy` (`Decimal`): the exact decimal rendering of an integer, with its parser and the round-trip lemma. This coincides with JavaScript's `String()` for the integers the model admits: those of magnitude at most 2^53.
- `js_values.dfy` (`JsValues`):
  - parsed JSON (`Json`), and `undefined` for a missing property (`Value`);
  - truthiness (`Truthy`) and `||` (`Or`);
  - a reference definition of a `||` chain (`FirstTruthyIndex`);
  - property reads (`Property`, defined for every value but `null`; reading a property of `null` throws, and that throw is modelled by its callers `EventsArray` and `MapEvents`) and template-literal text (`TemplateString`).
- `event_mapping.dfy` (`EventMapping`): the pure success path, lines 50-62, as functions.
- `handler.dfy` (`Handler`):
  - the gating decision (`Gate`) and the whole handler as a function (`Handle`);
  - the response object the handler writes to (the class `ServerResponse`);
  - `Serve`, the imperative handler with its early returns, proved to write exactly the reply `Handle` specifies.

The network exchange is an input, `Upstream`. It says whether fetch rejected, the status was not ok (with the body text), the body failed to parse, or the body parsed to a `Json` value. The configured key is an input too, an `Option<string>`. The handler's own outputs are the reply and the list of upstream requests it issued. "No upstream request is made" is therefore stated as that list being empty.

Edge cases where the code and its description differ:

- The handler's code has no pagination, no series or occurrences, no date or availability filtering, no deduplication and no sorting. None of these are modelled.
- The code reads only `/v1/events`, once.
- The code's output fields are `id, name, starts_at, url`, not the `date`/`image` fields described.
- When `data` is truthy but not an array, `eventsArray.map` throws a TypeError. The handler's `catch` then turns it into a 500 "Server error". The model follows that code path (`MapArray`).
- A body that is `null` fails in the same way when `raw.data` is read.
- A `null` element of the list fails in the same way when `ev.id` is read.

## Model

| member | source | states |
|---|---|---|
| Handler.Gate | api/ticket-tailor-events.js:11-25 | OPTIONS gives Preflight. Any method other than OPTIONS or GET gives MethodNotAllowed. GET with an unset or empty key gives MissingKey. Only GET with a non-empty key proceeds, carrying that key. Each case is stated in both directions. |
| Handler.Handle | api/ticket-tailor-events.js:11-71 | OPTIONS: 200, no body, no upstream request. Other non-GET methods: 405 "Method not allowed", no request. GET without a key: 500 "Missing TT_API_KEY env var", no request. GET with a key: exactly one request to the events endpoint with Basic credentials for that key, and the reply `Respond` gives. Never more than one request. |
| Handler.Respond | api/ticket-tailor-events.js:30-71 | The status is 200 or 500. It is 200 exactly when upstream answered ok with a parsed body that normalises without throwing, and then the body is that event list. A non-ok upstream gives 500 "Ticket Tailor API error" with the upstream text: never a list. Every other 500 is "Server error". |
| Handler.KeyPresent | api/ticket-tailor-events.js:21-22 | The key passes `!apiKey` (truthiness of the environment value) exactly when it is set and not the empty string. |
| Handler.EventsRequest | api/ticket-tailor-events.js:28-36 | The request goes to `https://api.tickettailor.com/v1/events`, accepts `application/json`, and carries Basic credentials for the configured key. |
| Handler.GatedReplyIgnoresUpstream | api/ticket-tailor-events.js:11-25 | When the gate does not proceed, the outcome is the same for every upstream behaviour and no request is issued. |
| Handler.NoListWithoutOkUpstream | api/ticket-tailor-events.js:38-64 | A GET reply that carries an event list implies that the key was present, that upstream answered ok with JSON, and that the status is 200. |
| Handler.Serve | api/ticket-tailor-events.js:11-71 | The handler's sequence of early returns writes exactly one response (`ended`). The written status and body are the reply of `Handle`, and the requests it issues are those of `Handle`. |
| Handler.ServerResponse.Status | api/ticket-tailor-events.js:12-23 | `res.status(code)` sets the status code and changes nothing else. |
| Handler.ServerResponse.Json | api/ticket-tailor-events.js:17-23 | `res.json(body)` sends the body, finishes the response and leaves the status unchanged. It requires that the response is not yet finished. |
| Handler.ServerResponse.End | api/ticket-tailor-events.js:12 | `res.end()` finishes the response without a body and leaves the status unchanged. |
| EventMapping.EventsArray | api/ticket-tailor-events.js:50 | An array body is itself the list. A null body throws (reading `data`). Any other body gives its `data` when that is truthy, and otherwise the empty array. |
| EventMapping.MapEvent | api/ticket-tailor-events.js:53-62 | `id` and `name` are copied unchanged. `starts_at` is the operand the chain starts_at, start_at, start_time yields per the reference definition `FirstTruthyIndex`: truthy exactly when one of the three is. `url` is `public_url` if truthy, else `url` if truthy, else the synthesised page link. The url is always truthy. |
| EventMapping.MapEvents | api/ticket-tailor-events.js:53-62 | `.map` succeeds exactly when no element is null, and otherwise throws a TypeError. On success the output has the input's length, and element i is the mapping of input element i, so order is kept. |
| EventMapping.MapArray | api/ticket-tailor-events.js:53 | `eventsArray.map(...)` succeeds exactly when its receiver is an array with no null element, and otherwise throws a TypeError. On success the output has the array's length, and element i is the mapping of array element i. |
| EventMapping.NormalizeBody | api/ticket-tailor-events.js:50-62 | Succeeds exactly for an array with no null element, for a non-null non-array body with falsy `data`, or for one whose `data` is an array with no null element. Everything else throws a TypeError: in particular a null body. An array body maps its elements. Falsy `data` gives the empty list. An array under `data` maps that array's elements. |
| EventMapping.BareAndWrappedAgree | api/ticket-tailor-events.js:49-50 | A bare array and an object whose `data` is that array normalise to the same result. |
| EventMapping.NormalizedLengthAndOrder | api/ticket-tailor-events.js:53-62 | A successful normalisation of an array has its length, copies each element's `id` in place, and gives every event a truthy url. |
| EventMapping.FallbackUrl | api/ticket-tailor-events.js:61 | The synthesised link starts with `https://tickettailor.com/events/`, and what follows is exactly the text of the id. |
| EventMapping.FallbackUrlInjectiveOnNumbers | api/ticket-tailor-events.js:61 | Two numeric ids get the same synthesised link only if the ids are equal. |
| JsValues.Truthy | api/ticket-tailor-events.js:22-61 | A value is falsy exactly when it is undefined, null, false, 0 or the empty string. This is the truthiness behind `!apiKey` and every `\|\|`. |
| JsValues.Or | api/ticket-tailor-events.js:57-61 | `a \|\| b` is truthy iff either operand is truthy. It is `a` when `a` is truthy and `b` otherwise. |
| JsValues.FirstTruthyIndex | api/ticket-tailor-events.js:57 | The operand an `\|\|` chain yields: every operand before it is falsy, and it is truthy or the last operand. |
| JsValues.OrChain3 | api/ticket-tailor-events.js:57 | `(a \|\| b) \|\| c` yields the operand the reference definition `FirstTruthyIndex` selects. |
| JsValues.Property | api/ticket-tailor-events.js:54-61 | A property read is defined exactly for an object's own key, with that key's value. Otherwise it is `undefined`. |
| JsValues.TemplateString | api/ticket-tailor-events.js:61 | `${v}` is "undefined" for undefined, and `String()` of the value (`JsonToString`) for every JSON value: null, booleans, numbers, strings, arrays and objects. |
| JsValues.JsonToString | api/ticket-tailor-events.js:61 | `String(j)` is "null" for null, "true"/"false" for booleans, the decimal text for a number, the string itself for a string, and "[object Object]" for an object. An array gives its element texts (`ElementTexts`) joined by commas. |
| JsValues.ElementTexts | api/ticket-tailor-events.js:61 | There is one text per array element, in order. A null element contributes "", and any other element contributes its `String()`. |
| JsValues.Join | api/ticket-tailor-events.js:61 | `join(",")` of no parts is "". Otherwise it starts with the first part, and its length is the sum of the parts' lengths plus one comma between each pair of neighbours. |
| JsValues.JoinContents | api/ticket-tailor-events.js:61 | Part i appears at offset `SumLengths(parts[..i]) + i`, after the earlier parts and one comma each. Every part but the last is followed by a comma. With `Join`'s length this fixes every character of the joined text. |
| Decimal.NatToString | api/ticket-tailor-events.js:61 | The rendering of a natural number is non-empty, all digits, and has no leading zero. |
| Decimal.IntToString | api/ticket-tailor-events.js:61 | The rendering of an integer is non-empty. |
| Decimal.NatRoundTrip | api/ticket-tailor-events.js:61 | Reading back the digits of n gives n. |
| Decimal.IntRoundTrip | api/ticket-tailor-events.js:61 | The rendering of any integer is a well-formed integer literal that parses back to it. |
| Decimal.IntToStringInjective | api/ticket-tailor-events.js:61 | Different integers render differently. |

## Left out

- CORS `setHeader` calls (lines 7-9): they set constant headers and involve no decision.
- Reading `process.env` (line 21): the key is an input, `Option<string>`.
- `Buffer.from(apiKey).toString("base64")` (line 28): the credential is kept opaque as `Basic(apiKey)`.
- `fetch`, `ttRes.text()`, `ttRes.json()` and JSON parsing (lines 31-36, 39, 47): these are network I/O. Their results are the `Upstream` input. A rejection of `ttRes.text()` in the non-ok branch is not modelled.
- `console.error` (line 66): logging.
- Respond: for a TypeError raised by the handler's own code, `details` is the marker `EngineMessage`, because the engine's message text is not modelled. For other errors the `details` text is taken from the input.
- Serialisation of the reply by `res.json`: `undefined` fields such as a missing `id` are dropped when sent. This is not modelled.
- JsValues.Json: numbers are integers of magnitude at most 2^53 (`SafeInteger`), where `String()` prints the exact decimal. Larger numbers are not modelled: JSON.parse rounds them and `String()` prints the shortest round-trip digits (`String(2**64)` is "18446744073709552000"). Fractions, NaN and -0 are not modelled either.
- Decimal.IntToString: renders any integer exactly. It agrees with JavaScript's `String()` only for magnitudes up to 2^53, the only numbers the model admits.
- JsValues.TemplateString: an object with its own `toString` key makes JavaScript's conversion throw, whether the object is the id itself or an element inside an id array. A JSON value is never callable, so such a key can never be a usable method. The model renders that object as "[object Object]" instead. An own `valueOf` key alone does not change the result.
- JsValues.Property: inherited properties of `Object.prototype` are not modelled. None of the keys the handler reads (`id`, `name`, `starts_at`, `start_at`, `start_time`, `public_url`, `url`, `data`) is one.
- Pagination, series and occurrences, date and availability filtering, deduplication and sorting: the handler's code does none of these.
