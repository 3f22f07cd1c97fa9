# HttpRouter and NullServer in Dafny

This project models the HTTP routing front end of the Kraken transfer layer.
`HttpRouter` holds three kinds of state:

- an allow-list of origins, kept as a PHP array used as a set;
- a route collection keyed by path, where every route is pinned to host `localhost`;
- on each connection, the dynamic `$conn->controller` slot that holds the bound component.

The router handles the four transport events (connect, message, disconnect, error). It checks the `Origin` header of HTTP requests against the allow-list. It asks the URL matcher for a route. It turns routing failures into a response status (403, 404 or 500) followed by a close. It binds and calls the matched component and sends component failures to that component's `handleError`. `NullServer` is the component that has no fields and whose four methods do nothing.

Layout:

- `transfer.dfy` (module `Transfer`): messages, failures and call outcomes. It also holds the `Handler` datatype, whose variants are `NullServer` and external components described by which of their methods throw. It defines the `Connection` class, with its `controller`, `sent`, `closed` and `calls` fields, and the four component calls as module-level methods that take the connection as an argument.
- `origins.dfy` (module `Origins`): the allow-list as a duplicate-free sequence in insertion order, which is the order `array_keys` returns. It also holds the origin key `parse_url($header, PHP_URL_HOST) ?: $header`.
- `http_router.dfy` (module `Router`): the `HttpRouter` class. Its methods are proved against the specification functions `OnMessage`, `OnDisconnect` and `OnError`, which work on connection-state values. Lemmas state what those functions promise.
- `router_runs.dfy` (module `Runs`): sequences of events on one connection, and properties of whole runs.
- `null_server.dfy` (module `Null`): facts about `NullServer`.

The URL matcher and `parse_url` are code outside this model. They are the two function-typed fields of `Collaborators`, which the router receives when it is constructed. The model assumes only one thing about the matcher (`Sound`): a route name it returns belongs to the collection it was given. The matcher receives the live route collection, as Symfony's `UrlMatcher` shares the router's `RouteCollection`.

Where the code does something other than an idealised sticky router, the model follows the code:

- Every HTTP request is origin-checked, matched and bound again, even on a connection that already has a controller. Only non-HTTP messages go straight to the bound controller (`BoundConnectionIsRematched`, `SecondRequestIsRerouted`).
- On the first-message path, a failure of the controller's own `handleError` is not caught. It propagates out of `handleMessage` instead of causing a 500 (`MatchedDispatch`). The 500 fallback is only in the router's `handleError`.
- `handleDisconnect` neither clears the binding nor closes the connection.
- A parsed host of `"0"` is falsy for PHP's `?:`, so the raw header is used as the key in that case, just as it is for a missing host (`OriginKey`).
- "Method not allowed" closes with 403, not 405.

## Model

| member | source | states |
|---|---|---|
| `Origins.Allow` | src/Transfer/Http/Component/Router/HttpRouter.php:79-84 | afterwards the origin is allowed, the others are as before, allowing an allowed origin changes nothing, a new origin goes last, and the list keeps no duplicates |
| `Origins.Disallow` | src/Transfer/Http/Component/Router/HttpRouter.php:90-98 | afterwards the origin is not allowed, the others are as before, disallowing an absent origin changes nothing, no duplicates appear, and exactly one entry goes |
| `Origins.OriginKey` | src/Transfer/Http/Component/Router/HttpRouter.php:193-197 | a non-empty header always gives a non-empty key, the key is the header or a parsed host that PHP treats as truthy, and a truthy parsed host is always used |
| `Origins.AllowThenDisallow` | src/Transfer/Http/Component/Router/HttpRouter.php:79-98 | allowing a new origin and then disallowing it gives back the original list |
| `Origins.DisallowThenAllow` | src/Transfer/Http/Component/Router/HttpRouter.php:79-98 | disallowing an allowed origin and allowing it again keeps the same origins, with that one moved to the end |
| `Origins.OthersUnaffected` | src/Transfer/Http/Component/Router/HttpRouter.php:79-98 | allowing or disallowing one origin leaves every other origin's membership unchanged |
| `Router.HttpRouter.constructor` | src/Transfer/Http/Component/Router/HttpRouter.php:48-56 | a new router has an empty route collection, no allowed origins, and the given matcher |
| `Router.HttpRouter.AllowOrigin` | src/Transfer/Http/Component/Router/HttpRouter.php:79-84 | the list becomes `Allow` of the old list, the origin is allowed, and the routes are untouched |
| `Router.HttpRouter.DisallowOrigin` | src/Transfer/Http/Component/Router/HttpRouter.php:90-98 | the list becomes `Disallow` of the old list, the origin is no longer allowed, and the routes are untouched |
| `Router.HttpRouter.IsOriginAllowed` | src/Transfer/Http/Component/Router/HttpRouter.php:104-107 | true exactly when the origin is in the allow-list |
| `Router.HttpRouter.GetAllowedOrigins` | src/Transfer/Http/Component/Router/HttpRouter.php:113-116 | returns exactly the allowed origins, in insertion order, without duplicates |
| `Router.HttpRouter.ExistsRoute` | src/Transfer/Http/Component/Router/HttpRouter.php:122-125 | true exactly when a route is stored under the path |
| `Router.HttpRouter.AddRoute` | src/Transfer/Http/Component/Router/HttpRouter.php:131-145 | the path maps to a route bound to the component and pinned to host `localhost`, replacing any earlier route for that path; other paths and the allow-list are untouched |
| `Router.HttpRouter.RemoveRoute` | src/Transfer/Http/Component/Router/HttpRouter.php:151-156 | the path no longer exists, other paths keep their routes, and the allow-list is untouched |
| `Router.HttpRouter.HandleConnect` | src/Transfer/Http/Component/Router/HttpRouter.php:162-163 | the connection is left unchanged |
| `Router.HttpRouter.HandleDisconnect` | src/Transfer/Http/Component/Router/HttpRouter.php:169-175 | the new connection state and the outcome are those of `OnDisconnect` |
| `Router.HttpRouter.HandleMessage` | src/Transfer/Http/Component/Router/HttpRouter.php:181-243 | the new connection state and the outcome are those of `OnMessage` for the current allow-list, routes and collaborators |
| `Router.HttpRouter.HandleError` | src/Transfer/Http/Component/Router/HttpRouter.php:249-264 | the new connection state is that of `OnError`, and the method never throws |
| `Router.HttpRouter.Close` | src/Transfer/Http/Component/Router/HttpRouter.php:273-279 | exactly one response with the given code is sent, then the connection is closed |
| `Router.FrameWithoutController` | src/Transfer/Http/Component/Router/HttpRouter.php:183-188 | a non-HTTP message with no bound controller produces exactly one close with 500 and returns normally |
| `Router.FrameForwarded` | src/Transfer/Http/Component/Router/HttpRouter.php:183-191 | a non-HTTP message with a bound controller goes unchanged to that controller, and its failure propagates; the allow-list, routes and matcher make no difference |
| `Router.EmptyOriginSkipsCheck` | src/Transfer/Http/Component/Router/HttpRouter.php:193-201 | an empty `Origin` header is never refused, and the allow-list makes no difference to how the request is handled |
| `Router.OriginRefusedIff` | src/Transfer/Http/Component/Router/HttpRouter.php:193-201 | a non-empty header is refused exactly when its key is not allowed |
| `Router.RefusedOriginCloses` | src/Transfer/Http/Component/Router/HttpRouter.php:193-201 | a refused origin closes with 403 before matching: no controller is bound or called, and the routes make no difference |
| `Router.MatchFailureCloses` | src/Transfer/Http/Component/Router/HttpRouter.php:203-227 | MethodNotAllowed closes with 403, ResourceNotFound with 404, and any other matcher failure with 500; the controller slot stays as it was and nothing is called |
| `Router.MatchedDispatch` | src/Transfer/Http/Component/Router/HttpRouter.php:229-242 | the matched controller is bound first, then sees connect, then message only if connect returned; a failure reaches its `handleError`; the call throws only when that also throws; the router sends nothing |
| `Router.BoundConnectionIsRematched` | src/Transfer/Http/Component/Router/HttpRouter.php:193-229 | on an already-bound connection, an HTTP request that matches nothing closes with 404, and one that matches rebinds the connection to the new route's controller |
| `Router.AtMostOneResponse` | src/Transfer/Http/Component/Router/HttpRouter.php:181-243 | a message either sends nothing or sends exactly one response (403, 404 or 500) and closes |
| `Router.DisconnectForwards` | src/Transfer/Http/Component/Router/HttpRouter.php:169-175 | a disconnect is forwarded only to a bound controller, and otherwise does nothing |
| `Router.ErrorFallback` | src/Transfer/Http/Component/Router/HttpRouter.php:249-264 | the router's `handleError` closes with 500 exactly when no controller is bound or the controller's `handleError` throws; the binding is never changed |
| `Runs.StepAppends` | src/Transfer/Http/Component/Router/HttpRouter.php:162-264 | one event appends at most one response (403, 404 or 500), only appends calls, and never reopens a closed connection |
| `Runs.Run` | src/Transfer/Http/Component/Router/HttpRouter.php:162-264 | over a run of events, the responses and calls so far are kept as a prefix, the run sends at most as many responses as it has events in total (the one-per-event bound is `StepAppends`), every response the router sends is 403, 404 or 500, and a closed connection stays closed |
| `Runs.FramesStayWithController` | src/Transfer/Http/Component/Router/HttpRouter.php:183-191 | once a controller is bound, every non-HTTP message reaches it in order and unchanged, nothing is sent, and it stays bound |
| `Runs.SecondRequestIsRerouted` | src/Transfer/Http/Component/Router/HttpRouter.php:193-242 | when both requests have an empty `Origin` header and the first one's controller returns normally from connect and message: after the first request binds that controller, a second request that matches no route still closes the connection with 404, and the bound controller never sees it |
| `Transfer.Connection.Send` | src/Transfer/Http/Component/Router/HttpRouter.php:277 | appends the response status and changes nothing else |
| `Transfer.Connection.Close` | src/Transfer/Http/Component/Router/HttpRouter.php:278 | marks the connection closed and changes nothing else |
| `Transfer.InvokeConnect` | src/Transfer/Http/Component/Router/HttpRouter.php:233 | records the call and returns as the component's `handleConnect` does |
| `Transfer.InvokeMessage` | src/Transfer/Http/Component/Router/HttpRouter.php:234 | records the call with the message unchanged and returns as the component's `handleMessage` does |
| `Transfer.InvokeDisconnect` | src/Transfer/Http/Component/Router/HttpRouter.php:173 | records the call and returns as the component's `handleDisconnect` does |
| `Transfer.InvokeError` | src/Transfer/Http/Component/Router/HttpRouter.php:242 | records the call with the failure and returns as the component's `handleError` does |
| `Null.NullServerReturns` | src/Transfer/Null/NullServer.php:15-37 | none of the four methods throws |
| `Null.NullServerNeverFallsBack` | src/Transfer/Null/NullServer.php:36-37 | with `NullServer` bound, the router's `handleError` sends nothing and leaves the connection as it was, apart from recording the call |
| `Null.NullServerFirstMessage` | src/Transfer/Null/NullServer.php:15-30 | a request matched to `NullServer` binds it, calls connect then message, and returns normally |
| `Null.NullServerBoundIsQuiet` | src/Transfer/Null/NullServer.php:9-38 | with `NullServer` bound, any run of events other than HTTP requests keeps it bound, sends nothing, leaves the connection open or closed as before, and every event returns normally |

## Left out

- The Symfony `UrlMatcher`, `RequestContext`, `Route` and `RouteCollection` internals are not part of this model. This covers template matching, host patterns, method restrictions, route priority, and the `Origin => localhost` requirement passed to each `Route`. The matcher is a field of `Collaborators`, and the only assumption about it is `Sound`.
- Symfony's `RouteCollection::add` moves a re-added route to the end, which matters for match priority. The model keeps routes in a map, so order is not represented.
- PHP's `parse_url` is not modelled. Its result for the header is the `hostOf` field of `Collaborators`.
- Writing the method and host into the shared `RequestContext` is folded into the `MatchRequest` value given to the matcher.
- The model does not build `HttpResponse` objects. The transport's `send` and `close` become an appended status code and a `closed` flag.
- The constructor's optional `ServerComponentAwareInterface`, `RouteCollection` and `RequestContext` arguments are left out, because `setComponent` is a foreign callback. `__destruct` only unsets fields and is left out too.
- A component's behaviour is reduced to which of its four methods throw, and what. What a component does to the connection itself is not modelled: its own sends or closes, or a write to `$conn->controller`.
- PHP's conversion of integer-like string keys such as "8080" to integers in `allowedOrigins` is not modelled; origins are treated as strings throughout.
- `ThreadCreateCommand` and `ContainerDestroyCommand` are not part of this model. Each only delegates to a runtime manager that is not shown.
- Concurrent administrative changes to routes or origins are not modelled. The PHP code is single-threaded and has no locking.
- `Route.path` keeps the path exactly as `addRoute` received it, and the route is stored under that same name. Symfony's `Route` normalises its path to one leading slash, so the name "hello" holds a route whose path is "/hello". Two names such as "a" and "/a" can therefore share one path. Nothing in the model reads `Route.path`, so this normalisation is not modelled.
- Router.HttpRouter.Close: PHP's `close($conn, $code = 400)` has a default status of 400. The model always takes a code, because every call in the router passes one.
- Runs.Run: the route table and the allow-list stay fixed for a whole run. `addRoute`, `removeRoute`, `allowOrigin` or `disallowOrigin` called between two events on one connection is not covered by the run lemmas. `FrameForwarded` still shows that routes and origins make no difference to non-HTTP messages.
