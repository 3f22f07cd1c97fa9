/** `HttpRouter`: the origin allow-list, the route table keyed by path, and
    the handling of the four transport events on a connection, including the
    translation of routing failures into status codes. */
module Router {
  import opened Transfer
  import opened Origins

  /** Status codes of the responses the router sends before closing:
      Forbidden, Not Found and Internal Server Error (sections 15.5.4,
      15.5.5 and 15.6.1 of RFC 9110). */
  const Forbidden := 403
  const NotFound := 404
  const InternalServerError := 500

  /** Every route the router adds is pinned to this host. */
  const Localhost := "localhost"

  /** A route as `addRoute` builds it: the path, the `_controller` default
      and the required host. */
  datatype Route = Route(path: string, controller: Handler, host: string)

  /** The request context the matcher sees: method, host and path. */
  datatype MatchRequest = MatchRequest(verb: string, host: string, path: string)

  /** What the route matcher does: return the matching route's name, or
      throw `MethodNotAllowedException`, `ResourceNotFoundException`, or
      any other Error or Exception. */
  datatype MatchOutcome =
    | Matched(name: string)
    | MethodNotAllowed
    | ResourceNotFound
    | MatcherFailure(failure: Failure)

  /** The two collaborators whose code is not part of this model: the
      host extraction of `parse_url` (None when it returns false or null)
      and the URL matcher, which reads the live route collection. */
  datatype Collaborators = Collaborators(
    hostOf: string -> Option<string>,
    matcher: (map<string, Route>, MatchRequest) -> MatchOutcome)

  /** What the model assumes of the matcher: a route it names is one of the
      routes it was given. */
  ghost predicate Sound(env: Collaborators)
  {
    forall rt: map<string, Route>, q: MatchRequest ::
      env.matcher(rt, q).Matched? ==> env.matcher(rt, q).name in rt
  }

  /** Every route is stored under its own path and carries host `localhost`. */
  ghost predicate Pinned(routes: map<string, Route>)
  {
    forall p :: p in routes ==> routes[p].path == p && routes[p].host == Localhost
  }

  function RequestOf(m: Message): MatchRequest
    requires m.HttpRequest?
  {
    MatchRequest(m.verb, m.host, m.path)
  }

  /** The new connection state and how the call returned. */
  datatype Reply = Reply(state: ConnState, outcome: Outcome)

  /** Whether an HTTP request with `Origin` header `header` is refused. */
  function OriginRefused(allowed: seq<string>, env: Collaborators, header: string): bool
  {
    header != "" &&
    var key := OriginKey(header, env.hostOf(header));
    key != "" && key !in allowed
  }

  /** The close status for a matcher failure. */
  function MatchFailureStatus(m: MatchOutcome): int
    requires !m.Matched?
  {
    match m
    case MethodNotAllowed => Forbidden
    case ResourceNotFound => NotFound
    case MatcherFailure(_) => InternalServerError
  }

  /** The matched controller is bound, then sees `handleConnect` and, if
      that returned, `handleMessage`; a failure of either goes to the same
      controller's `handleError`, whose own failure is not caught. */
  function Dispatch(s: ConnState, h: Handler, m: Message): Reply
  {
    var bound := Record(s.(controller := Some(h)), ConnectCall(h));
    match ConnectOutcome(h)
    case Raised(f) => Reply(Record(bound, ErrorCall(h, f)), ErrorOutcome(h))
    case Returned =>
      var delivered := Record(bound, MessageCall(h, m));
      match MessageOutcome(h)
      case Raised(f) => Reply(Record(delivered, ErrorCall(h, f)), ErrorOutcome(h))
      case Returned => Reply(delivered, Returned)
  }

  /** `handleMessage` on a connection in state `s`. */
  function OnMessage(allowed: seq<string>, routes: map<string, Route>, env: Collaborators,
                     s: ConnState, m: Message): Reply
    requires Sound(env)
  {
    if m.Frame? then
      match s.controller
      case None => Reply(Closing(s, InternalServerError), Returned)
      case Some(h) => Reply(Record(s, MessageCall(h, m)), MessageOutcome(h))
    else if OriginRefused(allowed, env, m.origin) then
      Reply(Closing(s, Forbidden), Returned)
    else
      var matched := env.matcher(routes, RequestOf(m));
      if matched.Matched? then Dispatch(s, routes[matched.name].controller, m)
      else Reply(Closing(s, MatchFailureStatus(matched)), Returned)
  }

  /** `handleDisconnect`: forwarded to the bound controller, if any. */
  function OnDisconnect(s: ConnState): Reply
  {
    match s.controller
    case None => Reply(s, Returned)
    case Some(h) => Reply(Record(s, DisconnectCall(h)), DisconnectOutcome(h))
  }

  /** The router's own `handleError`: the bound controller's `handleError`,
      and a close with 500 when there is none or it throws. It never throws. */
  function OnError(s: ConnState, f: Failure): ConnState
  {
    match s.controller
    case None => Closing(s, InternalServerError)
    case Some(h) =>
      var handled := Record(s, ErrorCall(h, f));
      if ErrorOutcome(h).Returned? then handled else Closing(handled, InternalServerError)
  }

  class HttpRouter {
    var routes: map<string, Route>
    var allowedOrigins: seq<string>
    const env: Collaborators

    ghost predicate Valid()
      reads this
    {
      NoDup(allowedOrigins) && Pinned(routes) && Sound(env)
    }

    /** A router with an empty route collection and no allowed origins. */
    constructor (env: Collaborators)
      requires Sound(env)
      ensures Valid() && this.env == env
      ensures routes == map[] && allowedOrigins == []
    {
      this.env := env;
      routes := map[];
      allowedOrigins := [];
    }

    method AllowOrigin(address: string)
      requires Valid()
      modifies this
      ensures Valid() && unchanged(this`routes)
      ensures allowedOrigins == Allow(old(allowedOrigins), address)
      ensures address in allowedOrigins
    {
      if address !in allowedOrigins {
        allowedOrigins := allowedOrigins + [address];
      }
    }

    method DisallowOrigin(address: string)
      requires Valid()
      modifies this
      ensures Valid() && unchanged(this`routes)
      ensures allowedOrigins == Disallow(old(allowedOrigins), address)
      ensures address !in allowedOrigins
    {
      if address in allowedOrigins {
        allowedOrigins := Disallow(allowedOrigins, address);
      }
    }

    method IsOriginAllowed(address: string) returns (b: bool)
      ensures b <==> address in allowedOrigins
    {
      b := address in allowedOrigins;
    }

    method GetAllowedOrigins() returns (r: seq<string>)
      requires Valid()
      ensures NoDup(r)
      ensures forall o :: o in r <==> o in allowedOrigins
      ensures r == allowedOrigins
    {
      r := allowedOrigins;
    }

    method ExistsRoute(path: string) returns (b: bool)
      ensures b <==> path in routes
    {
      b := path in routes;
    }

    method AddRoute(path: string, component: Handler)
      requires Valid()
      modifies this
      ensures Valid() && unchanged(this`allowedOrigins)
      ensures routes == old(routes)[path := Route(path, component, Localhost)]
      ensures path in routes && routes[path].controller == component && routes[path].host == Localhost
    {
      routes := routes[path := Route(path, component, Localhost)];
    }

    method RemoveRoute(path: string)
      requires Valid()
      modifies this
      ensures Valid() && unchanged(this`allowedOrigins)
      ensures routes == old(routes) - {path}
      ensures path !in routes
    {
      routes := routes - {path};
    }

    method HandleConnect(conn: Connection)
      ensures unchanged(conn)
    {
    }

    method HandleDisconnect(conn: Connection) returns (out: Outcome)
      modifies conn
      ensures Reply(conn.State(), out) == OnDisconnect(old(conn.State()))
    {
      out := Returned;
      if conn.controller.Some? {
        out := InvokeDisconnect(conn.controller.value, conn);
      }
    }

    method HandleMessage(conn: Connection, message: Message) returns (out: Outcome)
      requires Valid()
      modifies conn
      ensures Reply(conn.State(), out) == OnMessage(allowedOrigins, routes, env, old(conn.State()), message)
    {
      if message.Frame? {
        if conn.controller.None? {
          Close(conn, InternalServerError);
          return Returned;
        }
        out := InvokeMessage(conn.controller.value, conn, message);
        return;
      }

      var header := message.origin;
      if header != "" {
        var origin := OriginKey(header, env.hostOf(header));
        var allowed := IsOriginAllowed(origin);
        if origin != "" && !allowed {
          Close(conn, Forbidden);
          return Returned;
        }
      }

      var matched := env.matcher(routes, RequestOf(message));
      match matched {
        case MethodNotAllowed =>
          Close(conn, Forbidden);
          return Returned;
        case ResourceNotFound =>
          Close(conn, NotFound);
          return Returned;
        case MatcherFailure(_) =>
          Close(conn, InternalServerError);
          return Returned;
        case Matched(name) =>
      }

      conn.controller := Some(routes[matched.name].controller);
      var h := conn.controller.value;
      out := InvokeConnect(h, conn);
      if out.Returned? {
        out := InvokeMessage(h, conn, message);
        if out.Returned? {
          return;
        }
      }
      out := InvokeError(h, conn, out.failure);
    }

    method HandleError(conn: Connection, failure: Failure)
      modifies conn
      ensures conn.State() == OnError(old(conn.State()), failure)
    {
      if conn.controller.Some? {
        var out := InvokeError(conn.controller.value, conn, failure);
        if out.Returned? {
          return;
        }
      }
      Close(conn, InternalServerError);
    }

    /** Sends a response with status `code`, then closes the connection. */
    method Close(conn: Connection, code: int)
      modifies conn
      ensures conn.State() == Closing(old(conn.State()), code)
    {
      conn.Send(code);
      conn.Close();
    }
  }

  /** A non-HTTP message on a connection with no controller gets exactly
      one response, 500, and the connection is closed. */
  lemma FrameWithoutController(allowed: seq<string>, routes: map<string, Route>, env: Collaborators,
                               s: ConnState, m: Message)
    requires Sound(env) && m.Frame? && s.controller.None?
    ensures OnMessage(allowed, routes, env, s, m) == Reply(Closing(s, InternalServerError), Returned)
    ensures OnMessage(allowed, routes, env, s, m).state.sent == s.sent + [500]
  {
  }

  /** A non-HTTP message on a connection with a controller goes, unchanged,
      to that controller's `handleMessage`, whose failure propagates; no
      origin check or route matching takes place, so neither the allow-list
      nor the route table nor the collaborators make a difference. */
  lemma FrameForwarded(allowed: seq<string>, routes: map<string, Route>, env: Collaborators,
                       allowed': seq<string>, routes': map<string, Route>, env': Collaborators,
                       s: ConnState, m: Message, h: Handler)
    requires Sound(env) && Sound(env') && m.Frame? && s.controller == Some(h)
    ensures OnMessage(allowed, routes, env, s, m) == OnMessage(allowed', routes', env', s, m)
    ensures OnMessage(allowed, routes, env, s, m).state == s.(calls := s.calls + [MessageCall(h, m)])
    ensures OnMessage(allowed, routes, env, s, m).outcome == MessageOutcome(h)
  {
  }

  /** A request whose `Origin` header is empty or absent is never refused on
      origin grounds: the allow-list makes no difference to its handling. */
  lemma EmptyOriginSkipsCheck(allowed: seq<string>, allowed': seq<string>, routes: map<string, Route>,
                              env: Collaborators, s: ConnState, m: Message)
    requires Sound(env) && m.HttpRequest? && m.origin == ""
    ensures !OriginRefused(allowed, env, m.origin)
    ensures OnMessage(allowed, routes, env, s, m) == OnMessage(allowed', routes, env, s, m)
  {
  }

  /** A non-empty `Origin` header is refused exactly when its key (the
      parsed host, or else the raw header) is not allowed. */
  lemma OriginRefusedIff(allowed: seq<string>, env: Collaborators, header: string)
    requires header != ""
    ensures OriginRefused(allowed, env, header) <==> OriginKey(header, env.hostOf(header)) !in allowed
  {
  }

  /** A refused origin closes the connection with 403 before matching: no
      controller is bound or called, and the route table makes no difference. */
  lemma RefusedOriginCloses(allowed: seq<string>, routes: map<string, Route>, routes': map<string, Route>,
                            env: Collaborators, s: ConnState, m: Message)
    requires Sound(env) && m.HttpRequest? && OriginRefused(allowed, env, m.origin)
    ensures OnMessage(allowed, routes, env, s, m) == Reply(Closing(s, Forbidden), Returned)
    ensures OnMessage(allowed, routes', env, s, m) == OnMessage(allowed, routes, env, s, m)
    ensures OnMessage(allowed, routes, env, s, m).state.controller == s.controller
    ensures OnMessage(allowed, routes, env, s, m).state.calls == s.calls
  {
  }

  /** A matcher failure closes the connection with 403 for a method that is
      not allowed (deliberately not 405), 404 for no route, and 500 for any
      other Error or Exception; the controller slot is left as it was and no
      controller is called. */
  lemma MatchFailureCloses(allowed: seq<string>, routes: map<string, Route>, env: Collaborators,
                           s: ConnState, m: Message)
    requires Sound(env) && m.HttpRequest? && !OriginRefused(allowed, env, m.origin)
    requires !env.matcher(routes, RequestOf(m)).Matched?
    ensures var r := OnMessage(allowed, routes, env, s, m);
      r.outcome == Returned && r.state.controller == s.controller && r.state.calls == s.calls &&
      r.state.closed && |r.state.sent| == |s.sent| + 1 && r.state.sent[..|s.sent|] == s.sent &&
      r.state.sent[|s.sent|] == match env.matcher(routes, RequestOf(m))
        case MethodNotAllowed => 403
        case ResourceNotFound => 404
        case MatcherFailure(_) => 500
  {
  }

  /** On a successful match the route's controller is bound before it is
      called, so it stays bound whatever happens next; it sees
      `handleConnect`, then `handleMessage` only if that returned; a failure
      of either reaches its `handleError`, and only a failure of that
      propagates. The router sends nothing on this path. */
  lemma MatchedDispatch(allowed: seq<string>, routes: map<string, Route>, env: Collaborators,
                        s: ConnState, m: Message)
    requires Sound(env) && m.HttpRequest? && !OriginRefused(allowed, env, m.origin)
    requires env.matcher(routes, RequestOf(m)).Matched?
    ensures var h := routes[env.matcher(routes, RequestOf(m)).name].controller;
      var r := OnMessage(allowed, routes, env, s, m);
      r.state.controller == Some(h) && r.state.sent == s.sent && r.state.closed == s.closed &&
      r.state.calls == s.calls + match ConnectOutcome(h)
        case Raised(f) => [ConnectCall(h), ErrorCall(h, f)]
        case Returned => match MessageOutcome(h)
          case Raised(f) => [ConnectCall(h), MessageCall(h, m), ErrorCall(h, f)]
          case Returned => [ConnectCall(h), MessageCall(h, m)]
    ensures var h := routes[env.matcher(routes, RequestOf(m)).name].controller;
      var r := OnMessage(allowed, routes, env, s, m);
      r.outcome.Raised? <==>
        (ConnectOutcome(h).Raised? || MessageOutcome(h).Raised?) && ErrorOutcome(h).Raised?
  {
    var h := routes[env.matcher(routes, RequestOf(m)).name].controller;
    assert s.calls + [ConnectCall(h)] + [MessageCall(h, m)] == s.calls + [ConnectCall(h), MessageCall(h, m)];
    match ConnectOutcome(h) {
      case Raised(f) =>
        assert s.calls + [ConnectCall(h)] + [ErrorCall(h, f)] == s.calls + [ConnectCall(h), ErrorCall(h, f)];
      case Returned =>
        if MessageOutcome(h).Raised? {
          var f := MessageOutcome(h).failure;
          assert s.calls + [ConnectCall(h)] + [MessageCall(h, m)] + [ErrorCall(h, f)]
              == s.calls + [ConnectCall(h), MessageCall(h, m), ErrorCall(h, f)];
        }
    }
  }

  /** An HTTP request is matched afresh even on a connection that already
      has a controller: the binding is overwritten on a match, and a miss
      closes the connection without calling the old controller. */
  lemma BoundConnectionIsRematched(allowed: seq<string>, routes: map<string, Route>, env: Collaborators,
                                   s: ConnState, m: Message, h: Handler)
    requires Sound(env) && s.controller == Some(h)
    requires m.HttpRequest? && !OriginRefused(allowed, env, m.origin)
    ensures env.matcher(routes, RequestOf(m)) == ResourceNotFound ==>
      OnMessage(allowed, routes, env, s, m) == Reply(Closing(s, NotFound), Returned)
    ensures env.matcher(routes, RequestOf(m)).Matched? ==>
      OnMessage(allowed, routes, env, s, m).state.controller
        == Some(routes[env.matcher(routes, RequestOf(m)).name].controller)
  {
  }

  /** Each `handleMessage` either sends nothing or sends exactly one
      response, with status 403, 404 or 500, and closes the connection. */
  lemma AtMostOneResponse(allowed: seq<string>, routes: map<string, Route>, env: Collaborators,
                          s: ConnState, m: Message)
    requires Sound(env)
    ensures var r := OnMessage(allowed, routes, env, s, m);
      r.state.sent == s.sent ||
      (r.state.closed && |r.state.sent| == |s.sent| + 1 && r.state.sent[..|s.sent|] == s.sent &&
       r.state.sent[|s.sent|] in {Forbidden, NotFound, InternalServerError})
  {
  }

  /** `handleDisconnect` forwards to the bound controller and otherwise
      does nothing. */
  lemma DisconnectForwards(s: ConnState)
    ensures s.controller.None? ==> OnDisconnect(s) == Reply(s, Returned)
    ensures s.controller.Some? ==>
      OnDisconnect(s) == Reply(s.(calls := s.calls + [DisconnectCall(s.controller.value)]),
                               DisconnectOutcome(s.controller.value))
  {
  }

  /** The router's `handleError` sends the 500 response exactly when no
      controller is bound or the controller's `handleError` throws;
      otherwise it sends nothing and leaves the connection open. */
  lemma ErrorFallback(s: ConnState, f: Failure)
    ensures var t := OnError(s, f);
      t.controller == s.controller &&
      (if s.controller.None? || ErrorOutcome(s.controller.value).Raised?
       then t.sent == s.sent + [InternalServerError] && t.closed
       else t.sent == s.sent && t.closed == s.closed)
  {
  }
}
