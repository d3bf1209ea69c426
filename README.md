# replit-mcp-bridge: the in-page RPC layer

This project models the request path of replit-mcp-bridge, an editor
extension that exposes workspace operations (file system, command execution,
workspace information) to a local MCP client over the page's message bus. It
proves properties of that model. The model covers four pieces:

- **The route table and dispatcher of `HTTPBridge`** (`http_bridge.dfy`).
  - Ten routes live in a table keyed by `"<method>:<path>"`, and lookup is exact.
  - An absent key throws `Route not found: <method> <path>`.
  - The message listener answers every `HTTP_REQUEST` with an `HTTP_RESPONSE`. The reply has status 200 and `{ success: true, data }`, or status 500 and `{ success: false, error }`.
- **The older dispatcher of `MCPBridge`** (`background.dfy`).
  - It switches on `endpoint` alone.
  - Every handler except health catches its own errors into a prefixed `{ success: false, error }` envelope.
  - The listener replies with `MCP_RESPONSE` or `MCP_ERROR`, carrying the request's id.
- **The handler bodies both dispatchers share** (`handlers.dfy`, `paths.dfy`).
  - Destructuring defaults: `path = '.'`, `encoding = 'utf8'`, `options = {}`. `env` falls back to `{}` when falsy (`options.env || {}`).
  - Capability errors pass through verbatim.
  - Delete has two phases: it tries the file, then the directory.
  - The write size is `content.length`.
  - Listing paths are normalised by collapsing each run of `/`.
- **The injected `fetch` shim** (`fetch_shim.dfy`).
  - A string-prefix interception test and request extraction.
  - A settle-once state machine per call. A call resolves on the first matching `HTTP_RESPONSE`, or rejects with `Request timeout` when its timer fires.
  - A state invariant, correlation by id, late-response and commutation lemmas.
  - A `Shim` class whose methods are proved against the state-machine functions.

`round_trip.dfy` connects the layers:

- a `fetch` that the bridge answers resolves with the status, status text and JSON body of the envelope;
- the two dispatchers agree on every catching endpoint (all but `/health`), and their health handlers differ only in the bridge's added `timestamp`.

The route table itself (`HttpBridge.RouteTable`) is stated by the rows for `KeyInjective`, `TableRegistersEachRoute` and `LookupIsExact`. The interception test (`FetchShim.Intercepts`) is stated by the row for `PrefixTestScope`.

JavaScript values are the datatype `Js.Value`. `js.dfy` writes out exactly the parts of the language the code relies on:

- property reads that throw on `null` and `undefined`;
- destructuring defaults that apply only to `undefined`;
- truthiness;
- template-literal conversion.

The editor's capabilities (`fs`, `exec`, `data`) are not modelled. A `Host` value fixes what each call answers. Every handler returns the sequence of capability calls it issued, so the effects it requests can be stated. `JSON.parse`, `JSON.stringify`, `new URL(..).pathname` and `ToNumber` of non-numeric statuses are parameters (`FetchShim.Platform`). The request id (`Date.now() + Math.random()`) and the current time are arguments of `Fetch`.

## Model

| member | source | states |
|---|---|---|
| Paths.CollapseSlashes | background.js:222 | the normalised path never grows and keeps its first character |
| Paths.CollapseHasNoDoubleSlash | http-bridge.js:101 | a normalised path never contains `//` |
| Paths.CollapseKeepsNonSlash | background.js:222 | only slashes are dropped: the other characters survive in order |
| Paths.CollapseFixesClean | background.js:222 | a path without `//` is left unchanged |
| Paths.CollapseAbsorbsSlash | background.js:222 | doubling any slash does not change the result, so each run of slashes collapses to one |
| Paths.CollapseIdempotent | background.js:222 | normalising twice is normalising once |
| Handlers.Entries | background.js:220-224 | one entry per child, same order; name is the filename; path is the collapsed `dir/filename`; type is `file` exactly when the child type is `FILE`, otherwise `directory` |
| Handlers.ListingPathsClean | background.js:222 | no listed path contains `//`, whatever directory and file names are given |
| Handlers.ListingPathPlain | http-bridge.js:99-103 | when neither part needs collapsing, the entry path is exactly `dir + "/" + filename` |
| Handlers.ReadFile | background.js:154-172 | `encoding` defaults to `utf8`; exactly one `readFile` call; a capability error passes through verbatim; success data is `{ content, path }` echoing the requested path; a null or undefined body is a TypeError before any call |
| Handlers.WriteFile | background.js:181-199 | exactly one `writeFile` call; the error passes through verbatim; success exactly when the write is clean and `content` has properties; size is `content.length` (for a string, its character count); a null or undefined content after a clean write throws on reading `length` |
| Handlers.ListFiles | background.js:208-231 | `path` defaults to `.`; exactly one `readDir` call; the error passes through verbatim; success data is `{ files }` built from the children |
| Handlers.ListIgnoresRecursive | background.js:210 | requests that differ only in `recursive` list identically |
| Handlers.CreateDirectory | background.js:240-257 | exactly one `createDir` call; the error passes through verbatim; success data is `{ path }` |
| Handlers.Delete | background.js:266-288 | `deleteDir` is called only after `deleteFile` reported an error; success `{ path }` when either call succeeds; when both fail, the `deleteDir` error verbatim; a throw from either call propagates |
| Handlers.Transfer | background.js:297-349 | exactly one `move` or one `copyFile` call with `from` and `to`; the error passes through verbatim; success data is `{ from, to }` |
| Handlers.ExecuteCommand | background.js:351-363 | `options` defaults to `{}` and `env` to `{}` when falsy; any returned result is a success carrying command, exit code and output; only a throw fails; it never reports a capability error |
| Handlers.WorkspaceInfo | background.js:122-145 | asks for the user, then the repl only if the user lookup returned; success exactly when both return; the data aggregates the fields read |
| Background.Guard | background.js:146-151 | a handler result becomes success data; a reported error is kept verbatim; a thrown message becomes `<prefix>: <message>`; the calls are unchanged |
| Background.HandleHealth | background.js:110-120 | one `currentRepl` call; throws exactly when that call throws; otherwise success data `{ version, status, workspace }` |
| Background.HandleMcpRequest | background.js:66-102 | an unknown endpoint throws `Unknown endpoint: <endpoint>` without calling anything; `/health` makes one `currentRepl` call and returns the health envelope or throws its error; among known endpoints only health can throw; each catching endpoint yields the guarded envelope of its handler under its own prefix |
| Background.DispatchIgnoresMethod | background.js:67 | requests that differ only in `method` are handled identically |
| Background.OnMessage | background.js:46-62 | only `MCP_REQUEST` is answered; the reply carries the request id; `MCP_RESPONSE` with the data when dispatch returned, `MCP_ERROR` with the message when it threw |
| HttpBridge.SplitAtColon | http-bridge.js:290 | a `<method>:<path>` key with colon-free parts splits back into exactly that pair |
| HttpBridge.KeyInjective | http-bridge.js:29-158 | no two routes share a key |
| HttpBridge.TableRegistersEachRoute | http-bridge.js:29-158 | the table holds every route under the key of its own method and path, and nothing else |
| HttpBridge.LookupIsExact | http-bridge.js:289-298 | `<method>:<path>` is in the table exactly when the pair is registered, and the lookup finds the route registered for it |
| HttpBridge.MethodsOfRoutes | http-bridge.js:29-158 | GET for health and workspace info only; POST for every other route |
| HttpBridge.RunRoute | http-bridge.js:29-167 | the health route makes one `currentRepl` call, throws exactly when it throws with its message, and otherwise returns version `1.0.0`, status `running`, the repl title as workspace and the host time as timestamp; the other nine routes are covered by `RoundTrip.DispatchersAgree` |
| HttpBridge.Complete | http-bridge.js:67-69 | a handler result is returned; a capability error and a thrown error are both thrown with the message verbatim; the calls are unchanged |
| HttpBridge.Bridge.constructor | http-bridge.js:4-9 | construction fills the routes with exactly the table of ten routes |
| HttpBridge.Bridge.HandleRequest | http-bridge.js:289-298 | an absent key throws `Route not found: <method> <path>` without calling anything; a present key runs exactly the handler stored under it, on `body` |
| HttpBridge.Bridge.OnMessage | http-bridge.js:182-207 | only `HTTP_REQUEST` is answered; the reply has the request id, status 200 with `{ success: true, data }` exactly when the handler returned, and status 500 with `{ success: false, error }` exactly when it threw |
| FetchShim.PrefixTestScope | http-bridge.js:224 | the origin and anything after it are intercepted; so are other ports that start with 3002; a different host spelling and non-string URLs are not |
| FetchShim.RequestBody | http-bridge.js:231-238 | a falsy body becomes null; a string body is parsed when it parses and kept raw when it does not; any other body passes unchanged |
| FetchShim.ExtractRequest | http-bridge.js:223-238 | the URL is parsed first; a missing `options` reads as `{}`; a null `options` throws; the method defaults to GET when falsy; the path is the URL's pathname |
| FetchShim.StatusNumber | http-bridge.js:250 | the status converts to an unsigned 16-bit number; undefined gives the default 200; an in-range number is kept |
| FetchShim.BuildResponse | http-bridge.js:248-253 | the Response is built exactly when the status is in 200..599 and no body is given with a null-body status; it has that status, statusText `OK` exactly when the raw status is the number 200 and `Error` otherwise, the JSON content type, and the stringified data as body |
| FetchShim.BridgeStatusesBuild | http-bridge.js:248-253 | statuses 200 and 500 always build, with statusText `OK` and `Error` |
| FetchShim.InvalidStatusesFail | http-bridge.js:248-253 | the constructor throws for a null status, for a number whose 16-bit wrap lies outside 200..599, and for a number whose wrap is 204, 205 or 304 when a body is given |
| FetchShim.WrappedStatusBuilds | http-bridge.js:248-253 | the range applies after the 16-bit wrap: 65736 and -65336 wrap to 200 and build a response with statusText `Error` |
| FetchShim.FetchStep | http-bridge.js:222-283 | a non-intercepted call goes to the original fetch with its arguments unchanged; an extraction error rejects and leaves no listener, message or timer; otherwise one pending call with its listener, its posted message and its ten-second timer |
| FetchShim.Deliver | http-bridge.js:244-258 | every listener the message answers detaches and settles its own call; every other call is unchanged |
| FetchShim.Expire | http-bridge.js:272-276 | the timer detaches the listener and rejects a pending call with `Request timeout`; a settled call is unchanged |
| FetchShim.InitialInv | http-bridge.js:219-222 | the initial state satisfies the invariant and has distinct ids |
| FetchShim.FetchKeepsInv | http-bridge.js:240-276 | starting a call keeps the invariant: a listener only on a pending call, and every pending call still has its timer |
| FetchShim.FetchKeepsDistinctIds | http-bridge.js:241 | a fresh id keeps the call ids distinct |
| FetchShim.DeliverKeepsInv | http-bridge.js:244-258 | a message keeps the invariant |
| FetchShim.DeliverKeepsDistinctIds | http-bridge.js:244-258 | a message keeps the call ids distinct |
| FetchShim.ExpireKeepsInv | http-bridge.js:272-276 | a timeout keeps the invariant |
| FetchShim.ExpireKeepsDistinctIds | http-bridge.js:272-276 | a timeout keeps the call ids distinct |
| FetchShim.SettledStaysSettled | http-bridge.js:244-276 | a settled call keeps its outcome through every later message and timer |
| FetchShim.ResponseReachesOnlyItsCall | http-bridge.js:244-258 | with distinct ids, a response carrying a call's id detaches that call's listener only and resolves that call with the response it describes; when the constructor throws, the call stays pending |
| FetchShim.CollidingIdsShareAResponse | http-bridge.js:242-256 | two listening calls with the same id are both resolved by the first response carrying it, and both listeners detach, so one caller gets the other's reply |
| FetchShim.UnansweredMessageIsIgnored | http-bridge.js:245 | a message whose type or id matches no listening call changes nothing |
| FetchShim.TimeoutSettles | http-bridge.js:272-276 | after its timer a call is settled, rejected with `Request timeout` if it was pending, and a later response cannot reach it |
| FetchShim.DeliveriesCommute | http-bridge.js:244-258 | responses with different ids give the same state in either order |
| FetchShim.Shim.constructor | http-bridge.js:219-222 | the injected script starts with no calls, listeners or timers |
| FetchShim.Shim.Fetch | http-bridge.js:222-283 | the `fetch` replacement changes the state as `FetchStep` says and keeps the invariant |
| FetchShim.Shim.OnMessage | http-bridge.js:244-258 | a window message changes the state as `Deliver` says and keeps the invariant |
| FetchShim.Shim.OnTimeout | http-bridge.js:272-276 | a call's timer changes the state as `Expire` says and keeps the invariant |
| RoundTrip.FetchRoundTrip | http-bridge.js:182-207 | an intercepted call that the bridge answers resolves with status 200 and `OK` when the route returned, or 500 and `Error` when it threw; the body is the stringified envelope; no other call is touched |
| RoundTrip.RequestReachesItsRoute | http-bridge.js:289-298 | a posted request reaches the route registered for its method and path; an unregistered pair gets `Route not found` |
| RoundTrip.HealthAgrees | http-bridge.js:29-37 | the bridge's health route makes the same call as the background's health handler, throws exactly when it does with the same message, and otherwise returns the background's health data with `timestamp` added |
| RoundTrip.DispatchersAgree | background.js:74-99 | on each catching endpoint both dispatchers run the same handler body with the same calls; the route handler returns its value or throws every failure verbatim; the background envelope is success with that value, the reported error verbatim, or a thrown message prefixed by the handler name |

## Left out

- The DOM and window plumbing is not modelled: `addEventListener`, `postMessage` and `event.source`, the `<script>` injection, and `localStorage` in `writePortInfo`. Messages are values handed to the listeners.
- The editor capabilities (`fs`, `exec`, `data`, `init`, `debug`) are foreign code. Their answers are a `Host` value. The `await debug.error(...)` in the dispatcher's catch is not modelled, so a failing logger cannot replace the error.
- Handlers.ReadFile, Handlers.ListFiles: a clean capability reply always carries its payload (`content`, `children`). A reply without one, which reads as undefined or throws in `map`, is not modelled.
- The lifecycle is not modelled: `initialize`, `startServer`, `startBridgeServer`, the `isRunning`/`port` fields, `writePortInfo` and its heartbeat. `control.js` (the status panel UI) is not part of this model.
- The clock and randomness are inputs. The request id is the caller's integer, and `DistinctIds` assumes it is fresh. The real ids are `Date.now() + Math.random()` doubles. With `Date.now()` between 2^40 and 2^41, the sum is a multiple of 2^-12, so two calls started in the same millisecond (for instance under one `Promise.all`) share an id with probability about 1/4096. The model does not assign probabilities; `FetchShim.CollidingIdsShareAResponse` states what a collision does. The health timestamp is the host's `now` string.
- JSON and URL parsing are parameters: `JSON.parse` as a partial function, `JSON.stringify` as an opaque encoder, and `URL.pathname` as a function that may throw. `JSON.stringify` failures (cycles, BigInt) cannot arise for `Js.Value`.
- Numbers are integers: there are no fractional ids, no NaN and no floats in message fields. `content.length` is counted in characters of `seq<char>`, not in UTF-16 code units.
- FetchShim.StatusNumber: `ToNumber` of a status given as a string, array or object is the parameter `statusNumber`, not the WebIDL algorithm.
- TypeError messages use one wording, `Cannot read properties of null|undefined (reading '<key>')`, for property reads and for destructuring alike. V8's destructuring message names the variable instead.
- FetchShim.FetchStep: `Js.Value` holds only structured-clonable values, so a body or method such as a `FormData`, a `URLSearchParams` or a function is not represented. For those, `window.postMessage` throws a DataCloneError after the listener is attached and before the timer is set. The call rejects, but its listener stays attached for good with no timer. Neither `FetchStep`'s one-pending-call outcome nor `Inv`'s "a listener only while pending" covers this leak.
- JavaScript objects are maps: property order and object identity are not represented. Message fields that hold objects (such as `id`) compare by value.
- An explicit `undefined` argument and an omitted argument are the same here. The shim's `originalFetch.apply(this, arguments)` is recorded as the pair (url, options) it was called with.
- When a listener throws because `event.data` is null or undefined, the model treats the message as not addressed to it and the uncaught TypeError is not modelled. This applies to all three listeners: the background one (`Background.OnMessage`), the bridge one (`HttpBridge.Bridge.OnMessage`) and the shim's (`FetchShim.Deliver`).
- Number-to-string conversion writes every integer in full. JavaScript's `${n}` switches to exponent form from 1e21, so `Unknown endpoint: <endpoint>` and `Route not found: <method> <path>` differ from the model for numeric values that large.
- A thrown or rejected value is always an error message string (`Completion.Throw`). A capability that rejects with a non-Error value is not represented. In the source its `error.message` is then undefined, which gives texts such as `Failed to read file: undefined`, or a bridge envelope without `error`.
- The shim has no clock. A call records when its timer is due, but `Shim.OnTimeout` may fire at any point relative to messages, so the model covers every interleaving of responses and timers and does not use the ten-second bound to order them.
