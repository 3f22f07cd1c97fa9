/** The transport-side vocabulary the router works with: messages, the
    components a route is bound to, how their calls return, and the
    connection whose `controller` slot the router writes. */
module Transfer {

  datatype Option<+T> = None | Some(value: T)

  /** An Error or Exception thrown by a component. */
  datatype Failure = Failure(reason: string)

  /** How a call returns: normally, or by throwing a failure. */
  datatype Outcome = Returned | Raised(failure: Failure)

  /** A message delivered on a connection. `HttpRequest` stands for an
      `HttpRequestInterface`; `origin` is `getHeaderLine('Origin')`, which is
      "" when the header is absent. Any other message is a `Frame`. */
  datatype Message =
    | HttpRequest(verb: string, host: string, path: string, origin: string)
    | Frame(payload: string)

  /** Which of a component's four methods throw, and what they throw. */
  datatype Behaviour = Behaviour(
    onConnect: Option<Failure>,
    onMessage: Option<Failure>,
    onDisconnect: Option<Failure>,
    onError: Option<Failure>)

  /** A server component a route can be bound to: the stateless `NullServer`,
      or a component whose code is not part of this model, described by its
      behaviour. */
  datatype Handler = NullServer | Component(name: string, behaviour: Behaviour)

  /** One invocation of a component method, as the connection observes it. */
  datatype Call =
    | ConnectCall(handler: Handler)
    | MessageCall(handler: Handler, message: Message)
    | DisconnectCall(handler: Handler)
    | ErrorCall(handler: Handler, failure: Failure)

  /** A method with no failure to throw returns normally. */
  function Throws(f: Option<Failure>): Outcome
  {
    match f
    case None => Returned
    case Some(x) => Raised(x)
  }

  function ConnectOutcome(h: Handler): Outcome
  {
    match h
    case NullServer => Returned
    case Component(_, b) => Throws(b.onConnect)
  }

  function MessageOutcome(h: Handler): Outcome
  {
    match h
    case NullServer => Returned
    case Component(_, b) => Throws(b.onMessage)
  }

  function DisconnectOutcome(h: Handler): Outcome
  {
    match h
    case NullServer => Returned
    case Component(_, b) => Throws(b.onDisconnect)
  }

  function ErrorOutcome(h: Handler): Outcome
  {
    match h
    case NullServer => Returned
    case Component(_, b) => Throws(b.onError)
  }

  /** The observable state of one connection: the bound controller, the
      status codes of the responses sent on it, whether it was closed, and
      the component calls made for it. */
  datatype ConnState = ConnState(
    controller: Option<Handler>,
    sent: seq<int>,
    closed: bool,
    calls: seq<Call>)

  const Fresh := ConnState(None, [], false, [])

  function Record(s: ConnState, c: Call): ConnState
  {
    s.(calls := s.calls + [c])
  }

  /** A response carrying `code` is sent, then the connection is closed. */
  function Closing(s: ConnState, code: int): ConnState
  {
    s.(sent := s.sent + [code], closed := true)
  }

  class Connection {
    /** The dynamic `$conn->controller` property. */
    var controller: Option<Handler>
    var sent: seq<int>
    var closed: bool
    var calls: seq<Call>

    constructor ()
      ensures State() == Fresh
    {
      controller, sent, closed, calls := None, [], false, [];
    }

    function State(): ConnState
      reads this
    {
      ConnState(controller, sent, closed, calls)
    }

    /** The transport's `send`. */
    method Send(code: int)
      modifies this
      ensures State() == old(State()).(sent := old(sent) + [code])
    {
      sent := sent + [code];
    }

    /** The transport's `close`. */
    method Close()
      modifies this
      ensures State() == old(State()).(closed := true)
    {
      closed := true;
    }
  }

  /** `$h->handleConnect($conn)`. */
  method InvokeConnect(h: Handler, conn: Connection) returns (out: Outcome)
    modifies conn
    ensures conn.State() == Record(old(conn.State()), ConnectCall(h))
    ensures out == ConnectOutcome(h)
  {
    conn.calls := conn.calls + [ConnectCall(h)];
    out := ConnectOutcome(h);
  }

  /** `$h->handleMessage($conn, $message)`. */
  method InvokeMessage(h: Handler, conn: Connection, m: Message) returns (out: Outcome)
    modifies conn
    ensures conn.State() == Record(old(conn.State()), MessageCall(h, m))
    ensures out == MessageOutcome(h)
  {
    conn.calls := conn.calls + [MessageCall(h, m)];
    out := MessageOutcome(h);
  }

  /** `$h->handleDisconnect($conn)`. */
  method InvokeDisconnect(h: Handler, conn: Connection) returns (out: Outcome)
    modifies conn
    ensures conn.State() == Record(old(conn.State()), DisconnectCall(h))
    ensures out == DisconnectOutcome(h)
  {
    conn.calls := conn.calls + [DisconnectCall(h)];
    out := DisconnectOutcome(h);
  }

  /** `$h->handleError($conn, $ex)`. */
  method InvokeError(h: Handler, conn: Connection, f: Failure) returns (out: Outcome)
    modifies conn
    ensures conn.State() == Record(old(conn.State()), ErrorCall(h, f))
    ensures out == ErrorOutcome(h)
  {
    conn.calls := conn.calls + [ErrorCall(h, f)];
    out := ErrorOutcome(h);
  }
}
