/** The behaviours the adapter's spec file exercises, stated against the model. */
module BunnyScenarios {
  import opened Values
  import opened BunnyHelpers
  import opened Bunny

  /** Three nested stay_connected scopes over a connected client stop it exactly once. */
  method NestedScopesStopOnce(a: BunnyAdapter) returns (r: Result<Value>)
    requires !a.stayConnected && a.client != null && a.client.status == Connected
    modifies a, a.client
    ensures !a.stayConnected
    ensures a.client == old(a.client) && a.client.stops == old(a.client.stops) + 1
    ensures !a.client.broker.refusesStop ==> a.client.status == NotConnected
  {
    var innermost := Block(false, [], Nil);
    var middle := Block(false, [StayConnected(innermost)], Nil);
    ghost var connectedAtExit;
    r, connectedAtExit := a.StayConnected(Block(false, [StayConnected(middle)], Nil));
  }

  /** Three publishes inside one stay_connected scope send three messages, in
      order, and stop the connected client exactly once, with no new start. */
  method PublishesInScopeStopOnce(a: BunnyAdapter, payload: Value) returns (r: Result<Value>)
    requires !a.stayConnected && a.client != null && a.client.status == Connected
    requires !a.client.broker.refusesStart && !a.client.broker.refusesStop && !a.client.broker.refusesPublish
    modifies a, a.client
    ensures !a.stayConnected && r == Ok(Nil)
    ensures a.client == old(a.client) && a.client.stops == old(a.client.stops) + 1
    ensures a.client.starts == old(a.client.starts)
    ensures a.client.published == old(a.client.published) +
              [a.DeliveryFor(Str("testq"), a.pack(payload), map[]),
               a.DeliveryFor(Str("testq"), a.pack(payload), map[]),
               a.DeliveryFor(Str("testq"), a.pack(payload), map[])]
  {
    var publish := Publish(Str("testq"), payload, map[], None);
    var body := [publish, publish, publish];
    assert body[1..][1..][1..] == [];
    assert a.PlainPublishes(body[1..][1..]);
    assert a.PlainPublishes(body);
    ghost var connectedAtExit;
    r, connectedAtExit := a.StayConnected(Block(false, body, Nil));
    a.DeliveriesInOrder(body);
  }

  /** A publish from inside a subscription handler: the connected client is stopped
      exactly once in all, however many messages arrive. With a broker that refuses
      nothing, the handler is called once per message and subscribe answers true. */
  method SubscribeThenPublishStopsOnce(a: BunnyAdapter, inbound: seq<Headers>) returns (r: Result<Value>)
    requires !a.stayConnected && a.client != null && a.client.status == Connected
    modifies a, a.client
    ensures !a.stayConnected
    ensures a.client == old(a.client) && a.client.stops == old(a.client.stops) + 1
    ensures !a.client.broker.refusesStart && !a.client.broker.refusesStop && !a.client.broker.refusesPublish ==>
              r == Ok(Bool(true)) && a.calls == old(a.calls) + Handlings(inbound, a.unpack, false)
  {
    var handler := Block(false, [Publish(Str("bar"), Str("blah"), map[], None)], Nil);
    assert a.PlainPublishes(handler.body[1..]);
    r := a.Subscribe(Str("foo"), map[], Some(handler), inbound);
  }

  /** A subscription whose handler does nothing of its own, over messages none of
      which is the sentinel: the handler is called once per message, in order,
      with the arguments handle_bunny_message builds, and subscribe answers true. */
  method SubscribeHandsEveryMessage(a: BunnyAdapter, queue: Value, inbound: seq<Headers>, unary: bool)
    returns (r: Result<Value>)
    requires queue != DefaultQueue
    requires !a.stayConnected && a.client != null && a.client.status == Connected && !a.client.broker.refusesStop
    requires forall i :: 0 <= i < |inbound| ==> Lookup(inbound[i], "payload") != QueueEmpty
    modifies a, a.client
    ensures r == Ok(Bool(true))
    ensures |a.calls| == |old(a.calls)| + |inbound|
    ensures forall i :: 0 <= i < |inbound| ==>
              a.calls[|old(a.calls)| + i] == Handled(HandlerArguments(inbound[i], a.unpack, unary).value)
  {
    r := a.Subscribe(queue, map[], Some(Block(unary, [], Nil)), inbound);
    HandlingsPerMessage(inbound, a.unpack, unary);
  }

  /** A subscribe without a handler fails before touching the client. */
  method SubscribeWithoutBlock(a: BunnyAdapter, queue: Value) returns (r: Result<Value>)
    modifies a, a.client
    ensures r == Err(NoBlockGiven)
    ensures unchanged(a) && (a.client != null ==> unchanged(a.client))
  {
    r := a.Subscribe(queue, map[], None, []);
  }

  /** stay_connected over a client that is not connected releases nothing. */
  method IdleScopeStopsNothing(a: BunnyAdapter, value: Value) returns (r: Result<Value>)
    requires !a.stayConnected && (a.client == null || a.client.status == NotConnected)
    modifies a, a.client
    ensures r == Ok(value)
    ensures a.client != null && a.client.stops == (if old(a.client) == null then 0 else old(a.client.stops))
  {
    ghost var connectedAtExit;
    r, connectedAtExit := a.StayConnected(Block(true, [], value));
  }

  /** A publishing scope over an unconnected client whose broker refuses to start
      never gets connected, so its release stops nothing. */
  method RefusedStartScopeStopsNothing(a: BunnyAdapter, payload: Value) returns (r: Result<Value>)
    requires !a.stayConnected && a.client != null && a.client.status == NotConnected
    requires a.client.broker.refusesStart
    modifies a, a.client
    ensures a.client == old(a.client) && a.client.stops == old(a.client.stops)
    ensures a.client.status == NotConnected
  {
    ghost var connectedAtExit;
    r, connectedAtExit := a.StayConnected(Block(false, [Publish(Str("testq"), payload, map[], None)], Nil));
  }

  /** A publish the exchange refuses raises inside do_connect, so the client is
      not stopped after it, although no scope keeps it open. */
  method RefusedPublishSkipsStop(a: BunnyAdapter, queue: Value, payload: Value) returns (r: Result<Value>)
    requires queue != DefaultQueue
    requires !a.stayConnected && a.client != null && a.client.status == Connected && a.client.broker.refusesPublish
    modifies a, a.client
    ensures r == Err(TransportError("publish"))
    ensures a.client == old(a.client) && a.client.stops == old(a.client.stops)
    ensures a.client.status == Connected && a.client.published == old(a.client.published)
  {
    r := a.Publish(queue, payload, map[], None);
  }

  /** Two consecutive calls of client answer the same client. */
  method ClientIsMemoised(a: BunnyAdapter) returns (first: BunnyClient, second: BunnyClient)
    modifies a`client
    ensures first == second
  {
    first := a.Client();
    second := a.Client();
  }

  /** reset stops the client once and the next call of client builds a new one. */
  method ResetForcesNewClient(a: BunnyAdapter) returns (before: BunnyClient, after: BunnyClient, ghost stopsBefore: nat)
    modifies a`client, a.client
    ensures before != after && fresh(after)
    ensures before.stops == stopsBefore + 1
    ensures after.status == NotConnected && after.starts == 0 && after.stops == 0
  {
    before := a.Client();
    stopsBefore := before.stops;
    a.Reset();
    after := a.Client();
  }

  /** A handler of two parameters gets the message and the remaining headers. */
  lemma TwoArgumentHandlerGetsHeaders(unpack: Value -> Value)
    requires unpack(Str("my message")) == Str("my message")
    ensures HandlerArguments(map["payload" := Str("my message"), "some" := Sym("header")], unpack, false)
            == Some(WithPayloadAndHeaders(Str("my message"), map["some" := Sym("header")]))
  {
    var headers := map["payload" := Str("my message"), "some" := Sym("header")];
    assert headers - {"payload"} == map["some" := Sym("header")];
  }
}
