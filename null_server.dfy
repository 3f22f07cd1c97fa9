/** `NullServer`: the component with no fields whose four methods do
    nothing and return normally. */
module Null {
  import opened Transfer
  import opened Router
  import opened Runs

  /** None of its four methods throws. */
  lemma NullServerReturns()
    ensures ConnectOutcome(NullServer) == Returned
    ensures MessageOutcome(NullServer) == Returned
    ensures DisconnectOutcome(NullServer) == Returned
    ensures ErrorOutcome(NullServer) == Returned
  {
  }

  /** A connection bound to a `NullServer` never reaches the router's
      close-with-500 fallback: the router's `handleError` sends nothing. */
  lemma NullServerNeverFallsBack(s: ConnState, f: Failure)
    requires s.controller == Some(NullServer)
    ensures OnError(s, f) == s.(calls := s.calls + [ErrorCall(NullServer, f)])
    ensures OnError(s, f).sent == s.sent && OnError(s, f).closed == s.closed
  {
  }

  /** A successful match to a `NullServer` binds it, calls its
      `handleConnect` and `handleMessage`, and returns normally. */
  lemma NullServerFirstMessage(s: ConnState, m: Message)
    ensures Dispatch(s, NullServer, m) ==
      Reply(s.(controller := Some(NullServer),
               calls := s.calls + [ConnectCall(NullServer), MessageCall(NullServer, m)]),
            Returned)
  {
    assert s.calls + [ConnectCall(NullServer)] + [MessageCall(NullServer, m)]
        == s.calls + [ConnectCall(NullServer), MessageCall(NullServer, m)];
  }

  /** On a connection bound to a `NullServer`, any sequence of events other
      than HTTP requests leaves it bound, sends nothing, leaves the
      connection open or closed as it was, and every event returns normally:
      the component stays what a fresh one is. */
  lemma {:induction false} NullServerBoundIsQuiet(allowed: seq<string>, routes: map<string, Route>,
                                                  env: Collaborators, s: ConnState, events: seq<Event>)
    requires Sound(env) && s.controller == Some(NullServer)
    requires forall i :: 0 <= i < |events| ==> !(events[i].Deliver? && events[i].message.HttpRequest?)
    ensures var t := Run(allowed, routes, env, s, events);
      t.state.controller == Some(NullServer) && t.state.sent == s.sent && t.state.closed == s.closed &&
      forall i :: 0 <= i < |events| ==> t.outcomes[i] == Returned
    decreases |events|
  {
    if events != [] {
      var r := Step(allowed, routes, env, s, events[0]);
      assert r.outcome == Returned && r.state.controller == Some(NullServer);
      assert r.state.sent == s.sent && r.state.closed == s.closed;
      NullServerBoundIsQuiet(allowed, routes, env, r.state, events[1..]);
      var t := Run(allowed, routes, env, r.state, events[1..]);
      assert Run(allowed, routes, env, s, events) == Trace(t.state, [r.outcome] + t.outcomes);
    }
  }
}
