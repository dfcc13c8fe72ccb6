# Fastly purge client, modelled in Dafny

A model of the `FastlyPurge` client of node-fastly-purge (`lib/index.js`). The client
invalidates cached content on the Fastly CDN in three ways:

- `url`: a `PURGE` request to one URL;
- `service`: a `POST` to `https://api.fastly.com/service/{id}/purge_all`;
- `key`: a `POST` to `…/service/{id}/purge/{key}` for a surrogate key.

It also has `shieldingKey`, which issues a key purge and then, after a delay, a second
one, so that a shielding cache layer is cleared too.

The model is split into modules along the parts of the source:

- `Js` (js.dfy): JavaScript values and truthiness, and option objects as a class
  `JsObject` whose properties the client changes in place. `defaults` and `extend` are
  methods with `forEach` loops, proved against the recursive functions `Defaulted` and
  `Extended`. The literals merged in are `Literal` values: own properties in
  `Object.keys` order, each key once.
- `Requests` (requests.dfy): the request datatype and the `requestHeaders` gate. It also
  defines, for each operation, the options object after merging and the request sent.
- `Responses` (responses.dfy): `responseHandler` as a pure function. Its input is the
  transport's outcome and its result is the arguments the callback receives.
- `Shielding` (shielding.dfy): the shielding protocol as a trace of events. The events
  are: a purge sent, its response handled, the delay elapsed, the caller's callback
  invoked. Lemmas state how often each happens and in what order.
- `Client` (client.dfy): the class `FastlyPurge`. Its constructor stores the key and
  the options object. `Url`, `Service`, `Key` and `ShieldingKey` mutate the caller's
  options object as the source does. They return the request(s) they would send, and
  the callback arguments or event trace.

Behaviour of the code a caller may not expect, which the model keeps:

- The client keeps the caller's options object itself, not a copy (lib/index.js:9).
  A later change to that object changes the client's defaults.
- `url` sends `Fastly-Key`/`Accept` whenever the caller's own options carry a truthy
  `apiKey`/`accept` (lib/index.js:32-40). An object already used by `key` carries both.
- `shieldingKey` combines call and client options with `||` (lib/index.js:99-100).
  So a call's `false` or `0` cannot override a truthy client default.
- The merged options of `url` and `key` use `hasOwnProperty` (lib/index.js:156). So
  an explicit `softPurge: false` from the call wins over a truthy client default.

## Model

| member | source | states |
|---|---|---|
| `Js.Defaulted` | lib/index.js:154-162 | keys become those of `obj` plus the literal's; every key `obj` owns keeps its value (an explicit `false` too); every missing key gets the literal's value |
| `Js.Extended` | lib/index.js:164-169 | keys become those of `obj` plus the literal's; every key of the literal holds the literal's value; every other key of `obj` is unchanged |
| `Js.DefaultedIdempotent` | lib/index.js:154-162 | applying `defaults` twice with the same literal equals applying it once |
| `Js.ExtendedIdempotent` | lib/index.js:164-169 | applying `extend` twice with the same literal equals applying it once |
| `Js.Defaults` | lib/index.js:154-162 | the in-place `forEach` leaves the object's properties equal to `Defaulted` of the old ones |
| `Js.Extend` | lib/index.js:164-169 | the in-place `forEach` leaves the object's properties equal to `Extended` of the old ones |
| `Requests.FastlyUrl` | lib/index.js:171-173 | the URL is the API origin followed by exactly the path; stripping the origin gives the path back |
| `Requests.RequestHeaders` | lib/index.js:114-130 | `Fastly-Key` present iff `apiKey` is truthy, with that value; `Fastly-Soft-Purge` = 1 iff `softPurge` is truthy; `Accept` present iff `accept` is truthy, with that value; no other header |
| `Requests.KeyOptions` | lib/index.js:73-81 | after `key` the options own `softPurge` (the call's if it owned one, else the client's), `apiKey` = client key, `accept` = `application/json`; every other key is unchanged and nothing else is added |
| `Requests.UrlRequest` | lib/index.js:26-44 | method PURGE to exactly the given URL; soft-purge header = 1 iff the call's `softPurge` (if owned) else the client's is truthy; key/Accept headers only from a truthy `apiKey`/`accept` in the caller's options; no other header |
| `Requests.ServiceRequest` | lib/index.js:46-65 | POST to origin + `/service/` + id + `/purge_all`; `Fastly-Key` = client key (present iff the key is non-empty); `Accept: application/json` always; soft-purge header = 1 iff the caller's options alone have a truthy `softPurge`; no other header |
| `Requests.KeyRequest` | lib/index.js:67-91 | POST to origin + `/service/` + id + `/purge/` + key; `Fastly-Key` = client key and `Accept: application/json` whatever the caller passed; soft-purge header = 1 iff the call's `softPurge` (if owned) else the client's is truthy; no other header |
| `Requests.KeyOptionsRepeatable` | lib/index.js:73-81 | running `key`'s merge again on the options it already merged, under any client options, changes nothing |
| `Requests.KeyRequestRepeatable` | lib/index.js:102-109 | a second `key` call on the same options object sends the same request as the first |
| `Responses.ResponseHandler` | lib/index.js:132-152 | status ≠ 200 fails with that status and the body (or "Empty response body"), replacing any transport error; a transport error otherwise fails unchanged; status 200 succeeds with the parsed value if the content type is exactly `application/json` and the body parses, else with the raw body; never called without arguments |
| `Responses.MalformedJsonIsDeliveredRaw` | lib/index.js:142-150 | a 200 JSON response whose body does not parse delivers the raw body and no error |
| `Responses.OtherContentTypeIsDeliveredRaw` | lib/index.js:142 | a 200 response with any other content type delivers the raw body, even one that would parse |
| `Responses.JsonPayloadRoundTrip` | lib/index.js:142-150 | a value written by a serialiser that the parser reads back is delivered as that parsed value |
| `Shielding.ProtocolSendsTwo` | lib/index.js:102-110 | the protocol sends exactly two purges: the first event sends the first request, and the only later send is of the second request |
| `Shielding.ProtocolCallsBackOnce` | lib/index.js:102-110 | the callback fires exactly once: with no arguments after the first purge and before the delay when not waiting; last, with the second reply after both purges are handled, when waiting |
| `Shielding.ProtocolDelaysSecondPurge` | lib/index.js:102-110 | purges never overlap and none is left pending; the single delay elapses after the first purge is handled and before the second is sent |
| `Shielding.ShieldingPurgesTwice` | lib/index.js:93-112 | `shieldingKey` sends exactly two purges, each the very request `key` sends for the caller's options |
| `Shielding.ShieldingCallsBackOnce` | lib/index.js:93-112 | `shieldingKey` invokes the callback exactly once, with no arguments before the delay unless the effective wait is truthy, else last with the second purge's normalised outcome |
| `Shielding.ShieldingDelaysSecondPurge` | lib/index.js:93-112 | in `shieldingKey` the purges never overlap and the effective delay elapses between the first purge's completion and the second purge |
| `Shielding.CallCannotDisableShieldingDefaults` | lib/index.js:99-100 | a truthy client `shieldingWait` cannot be switched off per call; a falsy call `shieldingDelay` falls back to the client's, a truthy one is used |
| `Client.ClientDefaultsApplied` | lib/index.js:6-14 | the client's options keep every key the caller gave; `softPurge`, `shieldingWait`, `shieldingDelay` fall back to false, false, 4000 where missing |
| `Client.FastlyPurge.constructor` | lib/index.js:6-14 | stores the key and the caller's own options object (a fresh one if omitted), merged with the client defaults |
| `Client.FastlyPurge.Url` | lib/index.js:26-44 | sends `UrlRequest`, leaves the caller's options merged as `defaults` leaves them, and passes on the handler's result |
| `Client.FastlyPurge.Service` | lib/index.js:46-65 | sends `ServiceRequest`, leaves the caller's options extended with the credentials, and passes on the handler's result |
| `Client.FastlyPurge.Key` | lib/index.js:67-91 | sends `KeyRequest`, leaves the caller's options as `KeyOptions`, and passes on the handler's result |
| `Client.FastlyPurge.ShieldingKey` | lib/index.js:93-112 | produces exactly `ShieldingTrace`; the caller's options end as one `key` call leaves them, though `key` runs twice and the client's options may be that same object |

## Left out

- The HTTP transport `request` (lib/index.js:3, 36-43, 57-64, 83-90) is not modelled. The
  methods return the request they would send, and take the transport's outcome as an
  argument.
- `setTimeout` (lib/index.js:107-110): timing and real asynchrony are not modelled. The
  trace records that the delay elapsed and its value, not how long it took.
- `JSON.parse` (lib/index.js:144) is not modelled. It is a parameter, with `None` where it
  would throw.
- `util.format` (lib/index.js:60, 86) is modelled as plain concatenation of the
  `%s` arguments.
- Callback arity juggling (`if (!callback)`) is not modelled. An omitted options argument
  is `null` and stands for a fresh `{}`.
- JavaScript values are only `undefined`, booleans, integer numbers and strings. Objects,
  `null`, `NaN` and fractional numbers, with their truthiness, are not modelled.
- `FastlyPurge.constructor`: the API key is modelled as a string. The source accepts any value.
- Header values are the JavaScript values the header object holds (`Fastly-Soft-Purge`
  is the number 1). Turning them into strings on the wire belongs to the transport.
- `Responses.ResponseHandler`: an outcome with neither an error nor a response is not
  modelled. The transport never reports one, and the source would throw a `TypeError` on it.
- Callbacks are assumed to return normally. At lib/index.js:104 a caller that does not
  wait is called back before the timer is set (line 107), so a callback that throws there
  stops the second, shielding purge from ever being sent; the shielding lemmas and
  `Client.FastlyPurge.ShieldingKey` do not cover that path.
- Response bodies are strings. Buffers are not modelled.
- The exports (lib/index.js:16, 19) are not modelled; the API origin is the constant
  `Requests.FASTLY_API_ENDPOINT`.
