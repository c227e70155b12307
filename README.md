# dap-server routing and middleware core, in Dafny

This project models the routing and middleware layer of dap-server. That layer
has two classes.

- A **Route** keeps a route table for one base path. The table maps a full path
  to a bundle holding one handler per HTTP method. The Route also keeps an
  ordered middleware list and a handle on the listener, which it uses to look up
  requester addresses. Each handler it stores runs the Route's middleware, then
  the middleware given when the handler was registered. It reads the Route's
  list when a request arrives.
- A **Server** is itself a Route. It builds one aggregate table from the Routes
  it is given and from static mounts. It also keeps a list of server-wide
  middleware, a registry of Routes keyed by base path, and a host listener
  (at most one, unless `listen` is called while one is live). Using a Route
  and mounting a static value restart that listener; registering a handler
  on the Server directly does not.

The middleware chain runner is modelled as a total function over a datatype of
middleware behaviours (`Chain.Run`). A chain answers when it has at least one
behaviour that returns a response without calling `next`, and the first such
behaviour reached decides the response; a chain with none fails with "No final
handler found". Route and Server are classes whose methods update their fields in place.
The host runtime is treated as abstract:

- a listener is a value holding its port and the table it was started with;
- the calls the Server makes to start and stop listeners, and to run the ready
  callback, are recorded in order in `Server.log`;
- the requester address the host reports is the request's `peer` field.

Modules:

- `Chain` (chain.dfy): request, response and middleware values, the runner, and
  the onion-order, short-circuit and shared-request lemmas.
- `DapRoute` (dap_route.dfy): key composition, per-method binding, the
  IPv4-mapped prefix removal, and the `Route` class.
- `DapServer` (dap_server.dfy): `Object.assign`, dispatch with the 404
  fallback, the live-listener count, and the `Server` class.
- `Scenarios` (scenarios.dfy): the call sequences of the repository's tests and
  examples, with what the listener answers.

The Server's own comment on its middleware list (models/dap-server.js:41) calls
it the "global middleware functions to execute before route handlers". The code
does less than that, and the model follows the code:

- A handler registered by a Route runs the Route's own list and then the
  call-site middleware. The Route's list holds only the server-wide middleware
  used *after* the Route was registered, most recently added first
  (`Scenarios.GlobalMiddlewareOrder`).
- Middleware used before a Route was registered never reaches that Route
  (`Scenarios.ServerWithPets`).
- Handlers the Server registers itself run the Server's list in the order it
  was added.

## Model

| member | source | states |
|---|---|---|
| `Chain.Run` | models/dap-route.js:62-66 | element i runs with a `next` that runs element i+1. The run succeeds exactly when a terminal element exists at or after the start index, so the empty chain and an index past the end fail with ChainExhausted. No layer changes the peer address or the resolved IP |
| `Chain.RunShift` | models/dap-route.js:62-66 | running from index i+j is the same as running the suffix starting at i from index j, so an element's behaviour does not depend on its position |
| `Chain.RunStopsAtTerminal` | models/dap-route.js:64-65 | a middleware that never calls `next` ends the chain. Two chains that agree up to that element give the same result, whatever comes after it |
| `Chain.RunOnion` | models/dap-route.js:62-66 | with the first terminal element at t, the run succeeds. It records the "before" events of layers i..t-1 outermost first, then their "after" events innermost first |
| `Chain.RunSharesRequest` | models/dap-route.js:65 | every layer gets the same request. The terminal element sees the fields that all earlier layers attached, in order, and so does the outermost layer once `next` returns. Status and body are the terminal's |
| `Chain.RunKeepsStamp` | test/middleware/middleware.js:40-46 | a header set after `next` returns is on the final response, unless a layer further out sets the same header |
| `Chain.AnnotatedLastWins` | test/middleware/middleware.js:12-24 | the last layer that attaches a field decides the value everyone reading later sees |
| `Chain.AnnotatedKeeps` | test/middleware/middleware.js:12-24 | layers that do not attach a field leave it unchanged |
| `DapRoute.FullPath` | models/dap-route.js:73-79 | the key extends serverBase + baseUrl. A sub-path other than "/" is appended as given. A "/" sub-path gives "/" when both prefixes are empty, and otherwise the prefix alone |
| `DapRoute.FullPathSameKey` | models/dap-route.js:73-79 | two registrations under the same prefixes share a key exactly when their sub-paths are equal, or when a prefix is non-empty and the sub-paths are "/" and "" |
| `DapRoute.Bind` | models/dap-route.js:81-96 | after binding method m at key k, the bundle at k keeps every other method it had and holds the new handler in slot m. Every other key keeps its entry |
| `DapRoute.BindAgain` | models/dap-route.js:88-96 | registering the same method at the same key again replaces only that slot |
| `DapRoute.BindCommutes` | models/dap-route.js:81-96 | registering two different methods at one key gives the same bundle in either order |
| `DapRoute.FindFirst` | models/dap-route.js:45 | the index returned is where the pattern occurs first, with no earlier occurrence. None means the pattern occurs nowhere |
| `DapRoute.StripMappedIPv4` | models/dap-route.js:45 | "::ffff:" + v4 becomes v4 |
| `DapRoute.StripMappedPlain` | models/dap-route.js:45 | an address without the mapped prefix is left unchanged |
| `DapRoute.StripMappedFirst` | models/dap-route.js:45 | only the first occurrence of the prefix is cut out, so the address shrinks by exactly the prefix length |
| `DapRoute.Route.constructor` | models/dap-route.js:10-28 | a new Route has the given base path, an empty table, no middleware, no listener and an empty server prefix |
| `DapRoute.Route.SetServer` | models/dap-route.js:30-32 | the listener handle becomes the given listener |
| `DapRoute.Route.SetServerBase` | models/dap-route.js:38-40 | the server prefix becomes the given prefix |
| `DapRoute.Route.WithRequestIp` | models/dap-route.js:42-47 | with no listener the request is unchanged. Otherwise `ip` is the peer address with its first "::ffff:" removed. Nothing else about the request changes |
| `DapRoute.Route.AddMiddleware` | models/dap-route.js:52-54 | the new middleware goes in front and the old ones keep their order |
| `DapRoute.Route.Register` | models/dap-route.js:72-97 | the table becomes Bind of the old table at the composed key, for this method, with a handler owned by this Route holding the call-site middleware (one registrar for get/post/put/delete/head/options) |
| `DapRoute.Route.Handle` | models/dap-route.js:91-94 | a stored handler runs the Route's middleware as it is when the request arrives, then the call-site middleware. It answers exactly when that chain has a terminal element, and the request carries the resolved IP |
| `DapRoute.HandleOrder` | models/dap-route.js:93 | the Route's layers open before the call-site layers and close after them |
| `DapServer.Assign` | models/dap-server.js:67 | each path of the Route's table takes its whole entry, replacing the Server's entry there (no per-method merge). Other paths keep their entries |
| `DapServer.Dispatch` | models/dap-server.js:89-98 | a request gets the fallback 404 "Not Found" exactly when its path has no entry, or its method has no slot at that path. A mounted value is served exactly when the path holds one, and the value served is the one at the path |
| `DapServer.LiveRestart` | models/dap-server.js:107-112 | appending a stop and then a start leaves the number of live listeners unchanged |
| `DapServer.Server.constructor` | models/dap-server.js:16-52 | a new Server has an empty table, an empty registry, no middleware, no listener and empty prefixes |
| `DapServer.Server.UseMiddleware` | models/dap-server.js:59-66 | fn is appended to the Server's list and put in front of every registered Route's list. Nothing else changes and there is no restart |
| `DapServer.Server.Listen` | models/dap-server.js:89-101 | the Server holds a listener on the port serving the current table, and every registered Route gets that listener. The log records the start, then the callback. One more listener is live |
| `DapServer.Server.Restart` | models/dap-server.js:107-112 | with no listener nothing changes. Otherwise the old listener is stopped before a new one starts on the same port with the current table. The live count is unchanged, so a single listener stays single |
| `DapServer.Server.UseRoute` | models/dap-server.js:67-69 | the table becomes Assign(old table, route's table), and the registry maps the route's base path to the route, replacing any earlier one. No middleware list changes. With no listener nothing else changes, and no Route's listener handle moves. With a listener, the restart hands the new listener to every registered Route. A Route displaced from the registry by one with the same base path keeps its listener handle either way |
| `DapServer.Server.Install` | models/dap-server.js:67-68 | the first half of `use(route)`: the table becomes Assign(old table, route's table) and the registry maps the route's base path to the route, keeping the invariant of the registry. No listener handle changes and nothing is logged |
| `DapServer.Server.StaticMount` | models/dap-server.js:78-82 | when the load fails nothing changes, including every registered Route's listener handle. Otherwise the path maps to the loaded value and other paths keep their entries. Then comes a restart, which with a live listener hands the new listener to every registered Route |
| `Scenarios.SampleRoute` | test/routes/sampleRoute.js:4-23 | GET and OPTIONS share /api/hello, and GET /api/bye and POST /api/echo sit beside them. The /api/echo handler is stood in by `Echo`, since request bodies are not modelled |
| `Scenarios.SampleChains` | test/routes/sampleRoute.js:6-16 | the sample chains answer Hello World / Bye World with X-Custom set and the logger events nested around the handler |
| `Scenarios.SampleServerRoutes` | test/dap-server.test.js:10-12 | after use of the sample Route and a Server-owned POST /test-mw, the aggregate table is the sample table (with its /api/echo stand-in) plus that bundle, and the registry maps /api to the sample Route |
| `Scenarios.StartSampleServer` | test/dap-server.test.js:9-14 | after use, a Server-owned POST and listen, the listener's table holds the sample bundles and the sample Route holds the listener |
| `Scenarios.SampleServerHello` | test/dap-server.test.js:23-68 | GET /api/hello gives 200 "Hello World" with X-Custom true and the IPv4 address unmapped. OPTIONS at the same path gives 204 |
| `Scenarios.SampleServerBye` | test/dap-server.test.js:30-61 | GET /api/bye gives "Bye World" with X-Custom true. An unknown path gives the fallback 404 |
| `Scenarios.DogsRoute` | test/routes/dogs.js:3-12 | "/" under /dogs lands on /dogs, where GET and POST coexist |
| `Scenarios.OwnServerRoutes` | test/test.js:15-21 | the root handler and the static page are both in the Server's table before it starts. The `/param/:id` registration of line 16 is not replayed |
| `Scenarios.StartOwnServer` | test/test.js:15-23 | the root handler and the static page are in the Server's table, and listen starts a listener on 3000 serving them, then runs the callback |
| `Scenarios.UseDogsServer` | test/test.js:23-24 | using the dogs Route after listen merges its bundles into the table and restarts on the same port. The dogs Route here is the one of test/routes/dogs.js |
| `Scenarios.StartDogsServer` | test/test.js:5-24 | the example's sequence (root handler, static page, listen, then use of a dogs Route): the use after listen restarts on the same port, so the log is Serve, Callback, Stop, Serve with one listener live, and the new listener serves the merged table |
| `Scenarios.DogsServer` | test/test.js:15-24 | run with the dogs Route of test/routes/dogs.js (GET and POST at /dogs, GET at /dogs/walk), not the one-handler Route built at test/test.js:7 and 20, and without the `/param/:id` registration of test/test.js:16. The fixtures build their replies with `Response(...)` called without `new`; the model gives those handlers their evident intent, a 200 reply with the text. Under that reading both /dogs methods answer, the root handler and the static page are served, and an unbound method at /dogs and an unregistered /cats both get 404 |
| `Scenarios.PetsRoute` | models/dap-route.js:72-97 | a Route under /pets binding GET at "/" puts its bundle at /pets |
| `Scenarios.ServerWithPets` | models/dap-server.js:59-69 | middleware used before a Route is registered stays in the Server's list only. The Route's list is still empty after its use, and its bundle joins the Server's table |
| `Scenarios.GlobalMiddlewareSetup` | models/dap-server.js:59-68 | the Server's list grows at the back, a registered Route's list grows at the front, and middleware used before registration is missing from the Route |
| `Scenarios.GlobalMiddlewareOrder` | models/dap-server.js:59-68 | the Server's own handler runs a, b, c in use order. The Route's handler runs c then b |
| `Scenarios.SameBaseRoutes` | models/dap-route.js:72-97 | two Routes with one base path bind GET and POST at that path, each in its own table |
| `Scenarios.UseSameBaseTwice` | models/dap-server.js:67-68 | using both replaces the first in the registry, and the aggregate table holds only the second one's bundle at the shared path |
| `Scenarios.SameBaseTwice` | models/dap-server.js:67-68 | a second Route with the same base path replaces the first in the registry, and its bundle replaces the first one's whole bundle, so the first one's GET is gone |

## Left out

- The host server primitives `Bun.serve`, `server.stop(true)` and `server.requestIP` are modelled as follows:
  - a listener is a value holding a port and a table;
  - start and stop are log entries;
  - the reported address is the request's `peer` field.
  Socket binding, graceful draining, port conflicts and a `requestIP` that returns null are not modelled.
- URL pattern matching such as `/param/:id` belongs to the host. Dispatch is exact key lookup.
- Request and response objects are not modelled in full:
  - headers are a map;
  - bodies are strings;
  - `req.json()`, `req.text()` and JSON encoding are not modelled, so the echo handlers of the tests (`/api/echo`, `/test-mw`) are not checked. The `/api/echo`, `/test-mw` and `/dogs/walk` handlers are stood in by `Echo`, whose reply does not match what those handlers return.
- Middleware is a closed set of behaviours, not arbitrary closures:
  - reply without `next`;
  - reply with an attached field;
  - attach a field, then call `next`;
  - record events around `next`;
  - set a header after `next`.
  A closure that calls `next` only sometimes, calls it twice, or throws its own error is not modelled. The terminal handler and an early-exit middleware act the same and are both `Reply`.
- Promises and `async`/`await` are collapsed into sequential evaluation. Concurrent `use`/`static`/`restart` calls, and requests in flight during a restart, are out of scope.
- The dynamic `import(filePath)` in `static` is a `Load` parameter: either a loaded value or a failure, which changes nothing.
- `bunServerOptions` is passed to the host untouched and is not modelled.
- A listener's table is the Server's table at the time `listen` ran. This assumes the host reads `routes` when it starts. Registering on the Server after `listen` becomes visible at the next restart, not before.
- How the host serves a statically mounted value is not modelled. `DapServer.Dispatch` returns the value for every method.
- Registering a method at a path that holds a static mount starts from an empty bundle. The source spreads the mounted value's own properties into the new bundle, and that is not modelled.
- `DapServer.Server.UseRoute`: does not model a Server passed to its own `use` (it requires a Route other than the Server's own part).
- A Route's base path is a constant. Nothing in the core reassigns it after construction.
- `listen` called while a listener is live starts a second listener (the live count grows). The host's refusal to bind a port twice is not modelled.
- The port may be a string or a number in the source. Here it is a natural number.
- `DapServer.Dispatch`: does not state in its contract what a matched handler returns. `DapRoute.Route.Handle` and `DapRoute.HandleOrder` state it.
- `console.log` calls, the test runner and the type declaration files (including their `websockets` flag) are not part of this model.
