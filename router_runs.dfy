/** Sequences of transport events on one connection, delivered to the
    router in order while its route table and allow-list stay fixed. */
module Runs {
  import opened Transfer
  import opened Router

  datatype Event = Connect | Deliver(message: Message) | Disconnect | Error(failure: Failure)

  /** The router's handling of one event. */
  function Step(allowed: seq<string>, routes: map<string, Route>, env: Collaborators,
                s: ConnState, e: Event): Reply
    requires Sound(env)
  {
    match e
    case Connect => Reply(s, Returned)
    case Deliver(m) => OnMessage(allowed, routes, env, s, m)
    case Disconnect => OnDisconnect(s)
    case Error(f) => Reply(OnError(s, f), Returned)
  }

  /** Each event sends at most one response, and only the router's own
      statuses; calls and responses are only ever appended, and a closed
      connection stays closed. */
  lemma StepAppends(allowed: seq<string>, routes: map<string, Route>, env: Collaborators,
                    s: ConnState, e: Event)
    requires Sound(env)
    ensures var r := Step(allowed, routes, env, s, e);
      s.calls <= r.state.calls && (s.closed ==> r.state.closed) &&
      (r.state.sent == s.sent ||
       (|r.state.sent| == |s.sent| + 1 && r.state.sent[..|s.sent|] == s.sent &&
        r.state.sent[|s.sent|] in {Forbidden, NotFound, InternalServerError}))
  {
    if e.Deliver? {
      AtMostOneResponse(allowed, routes, env, s, e.message);
    }
  }

  datatype Trace = Trace(state: ConnState, outcomes: seq<Outcome>)

  /** The connection state after `events`, and how each event returned. */
  function Run(allowed: seq<string>, routes: map<string, Route>, env: Collaborators,
               s: ConnState, events: seq<Event>): (t: Trace)
    requires Sound(env)
    ensures |t.outcomes| == |events|
    ensures s.calls <= t.state.calls && s.sent <= t.state.sent
    ensures |t.state.sent| <= |s.sent| + |events|
    ensures s.closed ==> t.state.closed
    ensures forall k :: |s.sent| <= k < |t.state.sent| ==>
              t.state.sent[k] in {Forbidden, NotFound, InternalServerError}
    decreases |events|
  {
    if events == [] then Trace(s, [])
    else
      var r := Step(allowed, routes, env, s, events[0]);
      StepAppends(allowed, routes, env, s, events[0]);
      var t := Run(allowed, routes, env, r.state, events[1..]);
      Trace(t.state, [r.outcome] + t.outcomes)
  }

  /** Once a controller is bound, non-HTTP messages all go to it, in order
      and unchanged, whatever the route table and allow-list hold; each
      returns as the controller's `handleMessage` does, and nothing is sent. */
  lemma {:induction false} FramesStayWithController(allowed: seq<string>, routes: map<string, Route>,
                                                    env: Collaborators, s: ConnState,
                                                    events: seq<Event>, h: Handler)
    requires Sound(env) && s.controller == Some(h)
    requires forall i :: 0 <= i < |events| ==> events[i].Deliver? && events[i].message.Frame?
    ensures var t := Run(allowed, routes, env, s, events);
      t.state.controller == Some(h) && t.state.sent == s.sent && t.state.closed == s.closed &&
      |t.state.calls| == |s.calls| + |events| &&
      (forall i :: 0 <= i < |events| ==> t.state.calls[|s.calls| + i] == MessageCall(h, events[i].message)) &&
      (forall i :: 0 <= i < |events| ==> t.outcomes[i] == MessageOutcome(h))
    decreases |events|
  {
    if events != [] {
      var r := Step(allowed, routes, env, s, events[0]);
      assert r.state == s.(calls := s.calls + [MessageCall(h, events[0].message)]);
      FramesStayWithController(allowed, routes, env, r.state, events[1..], h);
      var t := Run(allowed, routes, env, r.state, events[1..]);
      assert Run(allowed, routes, env, s, events) == Trace(t.state, [r.outcome] + t.outcomes);
      forall i | 0 <= i < |events|
        ensures t.state.calls[|s.calls| + i] == MessageCall(h, events[i].message)
      {
        if i > 0 {
          assert events[1..][i - 1] == events[i];
        }
      }
    }
  }

  /** An HTTP request that matches route `name`, whose controller returns
      normally, and then one that matches no route: the connection is bound
      by the first and is still closed with 404 by the second, without the
      bound controller seeing it. */
  lemma {:induction false} SecondRequestIsRerouted(allowed: seq<string>, routes: map<string, Route>,
                                                   env: Collaborators, first: Message, second: Message,
                                                   name: string, h: Handler)
    requires Sound(env) && first.HttpRequest? && second.HttpRequest?
    requires first.origin == "" && second.origin == ""
    requires env.matcher(routes, RequestOf(first)) == Matched(name)
    requires env.matcher(routes, RequestOf(second)) == ResourceNotFound
    requires routes[name].controller == h && ConnectOutcome(h) == Returned && MessageOutcome(h) == Returned
    ensures var t := Run(allowed, routes, env, Fresh, [Deliver(first), Deliver(second)]);
      t.state.controller == Some(h) && t.state.sent == [NotFound] && t.state.closed &&
      t.state.calls == [ConnectCall(h), MessageCall(h, first)]
  {
    var r1 := Step(allowed, routes, env, Fresh, Deliver(first));
    assert r1.state.calls == [ConnectCall(h), MessageCall(h, first)];
    var r2 := Step(allowed, routes, env, r1.state, Deliver(second));
    assert r2.state == Closing(r1.state, NotFound);
    assert [Deliver(first), Deliver(second)][1..] == [Deliver(second)];
    assert Run(allowed, routes, env, r1.state, [Deliver(second)]).state == r2.state;
  }
}
