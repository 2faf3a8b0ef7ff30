# Web-app relay to a Flume agent — Dafny model

The web app is a small HTTP relay. It accepts user-interaction and backend-log
events over HTTP and forwards each one to a Flume agent, the collector, over
Flume's HTTP JSON source. The forwarding helper `sendToFlume` does three things:

- It wraps the event in a payload record `{timestamp, eventType, data, source, userAgent}`.
- It builds a one-element wire array. The array's single record has `headers`, which repeat the event type, source, user agent and timestamp. Its `body` is the base64 text of the JSON-encoded payload.
- It POSTs that array to `http://host:port` and reports `{success: true}` or `{success: false, error}`. It never throws.

Three POST handlers turn that outcome into an HTTP status and a JSON body. A
health handler reports the configured collector address.

The model is a set of pure functions over immutable datatypes:

- `js.dfy` (module `Js`): JSON values as `JSON.parse` yields them, with the exceptions listed under Left out. It also models JavaScript truthiness, `||`, `undefined` (as `None`) and thrown errors (`Completion`).
- `decimal.dfy` (module `Decimal`): the decimal text a template literal gives an integral status code, and a parser that reads it back.
- `config.dfy` (module `Config`): collector host and port, taken from the environment with `||` defaults. Also the `host:port` address, and splitting that address back into its parts.
- `flume.dfy` (module `Flume`): the payload, the headers, the wire array, reply classification, and `sendToFlume` as a whole.
- `endpoints.dfy` (module `Endpoints`): the `/api/submit`, `/api/log`, `/api/test-log` and `/api/health` handlers.

Every input from outside the program is a parameter:

- The outbound `fetch` is the parameter `collector: Request -> Reply`. It answers either with a transport error carrying a message, or with a reply carrying a status code.
- Each wall-clock reading is a timestamp string.
- The result of `c.req.json()` is a `Parsed` value: either a body or a parse error's message.
- The `User-Agent` request header and the `FLUME_HOST`/`FLUME_PORT` environment entries are `Option<string>`. `None` stands for `undefined`.

Points where the model follows the code, not a reading of its intent:

- `data` is the parsed JSON body, so it can be `null`. In that case `data.userAgent` throws a TypeError inside the `try` of `sendToFlume`. The outcome is `Failed` with V8's message for that error, and no request is made. The handlers answer this with their "failed to log" 500, not their generic error 500.
- The user agent is `data.userAgent || 'unknown'`, evaluated on a JSON value. An object's own `userAgent` member is kept whenever it is truthy, whatever its type, so it can be a number or an object. `false`, `0`, `""`, `null` and a missing member all give `"unknown"`. Arrays, strings, numbers and booleans have no `userAgent` property, so they also give `"unknown"`.
- The event type is a default parameter. Only `undefined` is replaced by `"user_interaction"`; an empty string is kept.
- `/api/test-log` answers 200 even when delivery fails, unlike the other two handlers, which answer 500. Its own `catch` (web-app/index.js:161-167) can never run: its event always has a truthy `userAgent`, and `sendToFlume` never throws. So the model has no 500 path for it.

## Model

| member | source | states |
|---|---|---|
| Js.StringOr | web-app/index.js:16-17 | The logical-or default on an optional string agrees with JavaScript's logical or on values. It is `b` or `a`'s own value, and it is never empty when `b` is non-empty. |
| Config.LoadConfig | web-app/index.js:16-17 | Host and port are never empty. An unset or empty variable gives `localhost` / `44444`. A non-empty variable is taken as given. |
| Config.AgentAddress | web-app/index.js:140 | The address is the host, then a colon, then the port, for every host and port. When the port has no colon, splitting at the last colon gives back exactly the configured host and port. |
| Decimal.ToDecimal | web-app/index.js:62 | The text of a status code is a non-empty string of digits. It has a leading `0` only for zero, and it is one digit exactly for values below 10. |
| Decimal.ParseToDecimal | web-app/index.js:62 | Parsing the decimal text of `n` gives back `n`. |
| Flume.ResolveUserAgent | web-app/index.js:40-47 | Resolving the user agent with the `'unknown'` fallback throws exactly when `data` is `null`, with the TypeError message. Otherwise it is always truthy. It is `data.userAgent` when that member exists and is truthy, and `"unknown"` in every other case. |
| Flume.PayloadJson | web-app/index.js:35-41 | The encoded payload object has exactly the five members `timestamp`, `eventType`, `data`, `source` and `userAgent`. Decoding it gives back the payload, and decoding accepts only objects with exactly those members. |
| Flume.BuildWire | web-app/index.js:34-51 | Building fails exactly when `data` is `null`. Otherwise the wire array has one element. Its body object has exactly the five payload members. Its header `eventType`, `source` (`web-app`) and `timestamp` equal the argument, the constant and the one captured time. Its header `userAgent` follows the fallback. Its body decodes to a payload that agrees with those four header fields and whose `data` is the input, unchanged. |
| Flume.StatusMessage | web-app/index.js:61-62 | The failure text for status `N` is `"Flume agent responded with status: "` followed by the shortest decimal numeral of `N` (no leading zeros), and `N` can be read back from it. |
| Flume.Classify | web-app/index.js:61-69 | The outcome is success exactly when the collector replied with a 2xx status. A transport error fails with its own message. A non-2xx reply fails with exactly the status text of its status code, from which the code can be read back. |
| Flume.SendToFlume | web-app/index.js:32-70 | No request is made exactly when `data` is `null`, and the outcome is then a failure, not an exception. Otherwise exactly one POST goes to `http://host:port`, as `application/json`, carrying the built wire array. The outcome is success iff that POST got a 2xx reply; failures carry the transport message or the status text. |
| Endpoints.HandlePost | web-app/index.js:74-133 | The status is 200 or 500. The body has exactly the members `success`, `message`, `timestamp` on 200 and `success`, `message`, `error` on 500. It is 200 iff the body parsed and delivery succeeded. `success` mirrors the status. 200 carries the route's success message and the reply timestamp, with no `error`. A delivery failure carries the route's failure message and the outcome's error. A parse exception carries the route's generic message and the exception text. |
| Endpoints.TestLogEvent | web-app/index.js:147-152 | The synthesized event has exactly the four members `level` (`"INFO"`), `message` (`"Test log message from web app"`), `component` (`"test-endpoint"`) and `userAgent`. Its `userAgent` is the `User-Agent` header when that is non-empty, `"unknown"` otherwise, and it is always truthy. |
| Endpoints.TestLog | web-app/index.js:145-168 | The status is always 200. The request is always made, with event type `test_log` and the header-derived user agent in the wire headers. The body has exactly `success` and `message`, plus `error` only on failure. `success` mirrors the outcome and the message is chosen by it. |
| Endpoints.Health | web-app/index.js:136-142 | The status is always 200. The body has exactly the members `status`, `timestamp` and `flumeAgent`, with `status: "healthy"`, the given timestamp and `flumeAgent` equal to `host:port`. That address is the one the delivery URL is built from. No collector reply is consulted. |

## Left out

- The `fetch` call itself (web-app/index.js:53-59) is network I/O. It is the `collector` parameter, which receives the exact request: URL, verb, content type and wire array.
- `Buffer.from(...).toString('base64')` and `JSON.stringify` are library calls. The body is kept symbolic as `Base64Json(payload)`, so base64 (section 4 of RFC 4648) and JSON text are not modelled. Decoding a body is therefore exact by construction, within the value domain below. Member order in the encoded object is not modelled either.
- Flume.BuildWire: event data holding a numeral too large for a double (such as `1e400`) is outside the model. `JSON.parse` reads it as an infinity, and `JSON.stringify` then writes `null`, so the real body would not give back the input data. Numbers are exact reals here, with no infinities.
- Flume.BuildWire: event strings holding a lone UTF-16 surrogate (such as `"\ud800"`) are outside the model, because a Dafny `char` cannot be a surrogate.
- The source reads `data.userAgent` twice (lines 40 and 47); the model reads it once. Objects produced by `JSON.parse` have no getters, so both reads give the same value.
- The success record's `message: 'Data sent to Flume agent'` (line 66) is never read by any caller, so `Outcome.Sent` carries nothing.
- Hono routing, `c.req.json()`, `c.json(...)` serialisation and `serve()` startup are framework plumbing. The parse result is an input, and response bodies are JSON values. A member whose value is `undefined` is left out of a body, as `JSON.stringify` does.
- The listen port `process.env.PORT || 3000` (line 170) and the startup log lines are startup plumbing.
- Static page serving with `readFileSync` (lines 20-29) is filesystem I/O.
- Clocks (`new Date().toISOString()`) are timestamp parameters, and the ISO-8601 format is not modelled.
- `console.log` / `console.error` output is not modelled.
- The unused `FLUME_AGENT_URL` constant (line 15) is dead code.
- Async scheduling and request concurrency are not modelled. Each request is an independent, sequential evaluation.
