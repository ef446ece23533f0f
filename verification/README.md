# claudia-api-webpack routing and reload core, in Dafny

This project models the part of `claudia-api-webpack` that has real logic. The tool is a local
development server for a Claudia API app (a handler module with `apiConfig()` and
`proxyRouter(event, {done})`). It rebuilds the handler with webpack and hot-swaps it into a
running Express server. The model covers:

- **route compilation** (`getRoutes`): the declared `routes` object becomes an ordered list of
  descriptors. Each holds `"/" + key`, the verb names, and a pattern with every `{name}`
  rewritten to `:name`;
- **route matching** (`getPathParams`): the first route, in order, that declares the request's
  verb and whose pattern matches the pathname; otherwise the raw pathname with no parameters;
- **event construction** (`getParams`): the record handed to `proxyRouter`;
- **response mapping** (`makeHandleResponse`): `done(err, response)` becomes status, headers and
  body, with the defaults 500/200/`{}`;
- **reload**: the `assetEmitted` filter and `reloadClaudiaApp`, as an update of the two
  variables `claudiaApp` and `routes`. The request path reads those variables.

Files:

- `js_value.dfy` (module `Js`): the JavaScript values the code handles. It models truthiness
  (`||`), `Object.keys`, property reads and thrown exceptions.
- `path_pattern.dfy` (module `PathPattern`): the regular expression `/{(.+?)}/g` and the
  segment matcher that stands in for `path-parser`.
- `routes.dfy` (module `Routes`): `getRoutes`, `getPathParams` and `getParams`.
- `adapter.dfy` (module `Adapter`): the `done` callback.
- `reload.dfy` (module `Reload`): the process state, reload and request handling.
- `scenarios.dfy` (module `Scenarios`): concrete request, response and reload scenarios, stated for all names.
- `wrappers.dfy` (module `Wrappers`): `Option`.

Loading the bundle (`m._compile`) is the function parameter `compile`. Calling the exports'
`apiConfig()` is the parameter `apiConfig`. The handler's `proxyRouter` is the parameter
`invoke`, which returns the `(err, response)` pair it passes to `done`. These parameters stand
for user code that the tool runs but does not define.

The `path-parser` library is not part of this model. `Path.createPath(p).test(pathname)` is
modelled under a stated assumption. Both strings are split at every `/`. A part starting with
`:` is a placeholder. A pathname matches when:

- it has the same number of parts as the pattern;
- its literal parts are equal to the pattern's;
- each placeholder gets one non-empty part.

A later placeholder of the same name overwrites an earlier one.

Four behaviours of the code that a reader might expect to be otherwise, modelled as the code has
them:

- A `routes` value of `undefined` or `null` makes `Object.keys` throw (src/index.js:121), rather
  than giving an empty route table. `GetRoutes` returns `Threw`.
- The reload is not one atomic publish. `claudiaApp` is assigned (src/index.js:50) before
  `apiConfig()` runs (src/index.js:52). If `apiConfig()`, the `routes` read or `getRoutes`
  throws, the new app is paired with the old routes, instead of app and routes changing
  together. On a first load those routes are `null`, and every request then throws
  (`ReloadLeavesStaleRoutes`).
- Before the first load `claudiaApp` and `routes` are both `null`, and the code has no answer
  (such as a 503) for requests at that point: `getParams` iterates the `null` routes
  (src/index.js:64, 87) and throws before `claudiaApp` is read. `Serve` returns `Threw`.
- The pathname is `req._parsedUrl.pathname`, which is not percent-decoded before matching. The
  model takes the pathname as given.

## Model

| member | source | states |
|---|---|---|
| PathPattern.ReplaceBracesRender | src/index.js:129 | for a key made of brace-free text and well-formed `{name}` placeholders, the rewrite yields the same key with every placeholder spelt `:name` and nothing else changed |
| PathPattern.NoBracesUnchanged | src/index.js:129 | a string without `{` is left unchanged by the rewrite |
| PathPattern.CreatePathSource | src/index.js:129 | the segments of a compiled pattern, joined with `/`, give back the pattern string |
| PathPattern.SplitJoin | src/index.js:89 | splitting the `/`-join of `/`-free parts gives the parts back, so each pathname part lines up with one pattern segment |
| PathPattern.JoinSplit | src/index.js:89 | joining the parts of a split gives the string back, so splitting loses nothing |
| PathPattern.Capture | src/index.js:89 | parameters are captured exactly when every segment is accepted, and the captured names are exactly the pattern's placeholder names |
| PathPattern.Test | src/index.js:89 | `test` succeeds if and only if the pathname has the pattern's segment count, equal literals and non-empty placeholder parts; on success the keys are the placeholder names |
| PathPattern.MatchInstantiated | src/index.js:89 | a pathname with the pattern's literals and one non-empty `/`-free value per placeholder matches, binding the placeholders to those values in order |
| PathPattern.ZipBinds | src/index.js:89 | with distinct placeholder names, each name is bound to the value in its own position |
| Routes.GetRoutes | src/index.js:120-131 | throws exactly when the routes value is `undefined` or `null`; otherwise one descriptor per key, in key order, with resource path `/` + key |
| Routes.RouteMethods | src/index.js:124 | a route's verbs are exactly the keys of its verb mapping, and there are none when the mapping is falsy |
| Routes.RoutePattern | src/index.js:125-129 | a route's pattern string is its resource path with each `{name}` rewritten to `:name` |
| Routes.RoutePatternPlain | src/index.js:129 | a key without braces gives a pattern string equal to its resource path |
| Routes.GetPathParams | src/index.js:85-103 | the result comes from the first route that both declares the verb and matches the path; with no such route it is the raw pathname with no parameters |
| Routes.GetPathParamsLoop | src/index.js:87-102 | the source's in-order loop with early return gives the same first-match result |
| Routes.UndeclaredVerbIgnored | src/index.js:88-91 | removing every route that does not declare the request's verb never changes the result, so such routes are never selected |
| Routes.LaterRoutesIgnored | src/index.js:91-96 | once a route is selected, replacing all routes after it changes nothing |
| Routes.GetParams | src/index.js:105-118 | the event carries the request's verb, headers, query and body unchanged, and the selected route's resource path and exactly the parameters its pattern captured from the pathname, keyed by its placeholder names; with no route it carries the raw path and no parameters |
| Adapter.Respond | src/index.js:134-147 | a truthy error gives 500 and `{message: err.message}`; otherwise a nullish response throws; every reply has a truthy status and body |
| Adapter.ErrorIgnoresResponse | src/index.js:136-141 | when an error is reported the response value has no influence |
| Adapter.SuccessFields | src/index.js:142-145 | status, headers and body are the response's own when truthy and 200, `{}`, `{}` otherwise |
| Adapter.DefaultsStable | src/index.js:142-145 | responding with a successful reply's own fields reproduces that reply, so defaults are applied once and are stable |
| Reload.ReloadApp | src/index.js:45-54 | a failing compile changes nothing; a successful one stores the new app; routes change only when no exception is thrown, and then they are `getRoutes` of the new config's `routes` |
| Reload.OnAssetEmitted | src/index.js:31-36 | an asset whose name differs from the output filename leaves both variables unchanged; the output file runs the reload with its content |
| Reload.RunKeepsRoutesWithApp | src/index.js:31-54 | over any series of emitted assets, routes are never present without an app |
| Reload.RunIgnoresOtherFiles | src/index.js:31-36 | a series of assets none of which is the output file leaves the state unchanged |
| Reload.ReloadIdempotent | src/index.js:45-54 | after a successful reload, reloading the same source publishes the same state again |
| Reload.FailedReloadKeepsServing | src/index.js:50-53 | a failed reload of a serving state keeps an app and the previous routes |
| Reload.Serve | src/index.js:63-69 | with `null` routes (before the first load, or after a first load whose `apiConfig()` threw) a request throws; otherwise the handler receives the event carrying the request's verb, headers, query and body with the first eligible route's resource path and captured parameters (or the raw path and no parameters), and the reply is the `done` mapping of what it reports |
| Reload.HandlerErrorGives500 | src/index.js:63-69 | once routes are loaded, a handler that always reports an error is answered with status 500 and no headers, whatever the request |
| Reload.ReloadThenServe | src/index.js:45-54 | after a successful reload every request is answered, by a handler that always reports a response, with a truthy status and body |
| Scenarios.PlaceholderEndToEnd | src/index.js:105-131 | with `{"r/{x}": {verb}}`, the request `verb /r/v` reaches the handler with resource path `/r/{x}` and parameters `{x: v}` |
| Scenarios.FirstDeclaredWins | src/index.js:87-96 | for overlapping `r/{x}` and `r/b`, whichever is declared first serves `/r/b`, in both orders |
| Scenarios.VerbMismatchFallsBack | src/index.js:88-102 | a `GET`-only route does not serve `POST` to its path; the request falls back to the raw path |
| Scenarios.NoPrefixMatch | src/index.js:89 | `/a/b` does not match `/a/:x/c`: matching is by whole segments, not prefix |
| Scenarios.CreatedResponse | src/index.js:142-146 | `{statusCode: 201, body: {ok: true}}` is sent as 201 with that body |
| Scenarios.BoomResponse | src/index.js:136-141 | an error with message `boom` is sent as 500 with body `{message: "boom"}` |
| Scenarios.ZeroStatusIsDefaulted | src/index.js:144 | a status code of 0 is falsy and replaced by 200 |
| Scenarios.MissingResponseThrows | src/index.js:142-143 | `done(null, undefined)` throws instead of answering |
| Scenarios.ReloadLeavesStaleRoutes | src/index.js:50-53 | when `apiConfig()` throws on the first load the new app is stored with `null` routes, and a request then throws |

## Left out

- Command-line parsing, usage output and exit (src/index.js:16-26): option handling of the `commander` library.
- The webpack compiler, watch loop and stats logging (src/index.js:28-40): an external bundler. Only its `assetEmitted` notification is modelled.
- Module execution (`new module.constructor()`, `m._compile`, src/index.js:46-48): it runs arbitrary code. It is the parameter `compile`.
- Express middleware (CORS, body parsers), the `app.all` registration, and HTTP/HTTPS server setup with certificate reads (src/index.js:56-83): library plumbing and I/O.
- Asynchronous timing: a handler that never calls `done`, or calls it twice, and requests interleaved with reloads. The handler is modelled as reporting exactly one `(err, response)`.
- An exception thrown synchronously by `proxyRouter`: Express's own error handling is not part of this model.
- Reload.OnAssetEmitted: compares the configured filename as a plain string. A non-string `output.filename`, and JavaScript's loose `==`, are not modelled.
- PathPattern.Test: a simplified segment matcher, not `path-parser`. Literal segments are compared case-sensitively, while `path-parser` by default ignores case. Query-string patterns, trailing-slash tolerance, parameter character classes, constraints and splats, and percent-decoding are not modelled.
- PathPattern.Capture: when a placeholder name repeats, the later value wins. What `path-parser` does in that case is not part of this model.
- Js.Value: no functions, no floating point or `NaN`, no prototype properties. An object's entries are assumed to have distinct keys, which the datatype does not enforce (a repeated key would compile two routes). A string's `length` counts code points, where JavaScript counts UTF-16 code units. Object entries are taken in `Object.keys` order; JavaScript's moving of integer-like keys to the front is not modelled.
- Routes.GetRoutes: compiling a pattern never fails here. `Path.createPath` (src/index.js:129) throws on a pattern its tokenizer rejects, for example a key containing a space; `getRoutes` then throws too and the reload keeps the old routes. The contract's "throws exactly when the routes value is `undefined` or `null`" holds only for keys the parser accepts.
- Reload.Run: assumes the watcher survives a reload that throws and keeps delivering assets. The tap (src/index.js:31-36) has no `try`/`catch`, and what webpack does with an escaping exception is not part of this model. `RunKeepsRoutesWithApp`, `FailedReloadKeepsServing` and `ReloadLeavesStaleRoutes` rest on the same assumption.
- Reload.ReloadIdempotent: `compile` and `apiConfig` are deterministic functions here. The program evaluates a fresh module on every reload, so equal results hold only for bundle code whose configuration does not depend on hidden state.
- Adapter.Respond: what Express and Node do with the values afterwards is not modelled. That includes header and status validation, `res.set` on non-object headers, and JSON serialization of the body.
