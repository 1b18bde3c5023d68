/** The Bunny adapter's connection lifecycle: a memoised broker client, the
    process-wide stay-connected flag with its save/restore discipline, and
    publish and subscribe built on do_connect and stay_connected.

    The blocks a caller hands to stay_connected, to subscribe (the handler) and
    to publish (the callback) are programs over the adapter's own operations:
    a Block is a list of Actions run in order, stopped by the first exception,
    and the value the block returns. */
module Bunny {
  import opened Values
  import opened BunnyHelpers

  datatype Status = NotConnected | Connected

  /** How the broker answers the client: whether it refuses start, stop or an
      exchange publish. A refusal is the exception the client raises. */
  datatype Broker = Broker(refusesStart: bool, refusesStop: bool, refusesPublish: bool)

  /** A queue declaration made through the client. */
  datatype Declaration = Declaration(queue: Value, options: Options)

  /** A message published through the client's direct exchange. */
  datatype Delivery = Delivery(exchange: Options, body: string, options: Options)

  /** A subscription opened through the client. */
  datatype Subscription = Subscription(queue: Value, options: Options)

  /** What a caller's block does. */
  datatype Action =
    | Publish(queue: Value, payload: Value, options: Options, callback: Option<Block>)
    | Subscribe(queue: Value, options: Options, handler: Option<Block>, inbound: seq<Headers>)
    | StayConnected(block: Block)
    | Raise

  /** A Ruby block: whether it declares exactly one parameter, what it does,
      and the value it returns when it finishes. */
  datatype Block = Block(unary: bool, body: seq<Action>, value: Value)

  /** The code the adapter itself runs inside stay_connected and do_connect. */
  datatype Job =
    | CallBlock(block: Block)                               // stay_connected calling its block
    | Send(queue: Value, body: string, options: Options)    // publish's do_connect block
    | Consume(queue: Value, options: Options, handler: Block, inbound: seq<Headers>)  // subscribe's do_connect block
    | Connect(job: Job)                                     // subscribe's stay_connected block: do_connect { job }

  /** A call the adapter made to a caller's block, recorded in order. */
  datatype BlockCall =
    | Yielded(adapterPassed: bool, staying: bool)   // stay_connected's block, with the flag it ran under
    | Handled(call: HandlerCall)                    // a subscription handler

  function BlockSize(b: Block): nat
  {
    1 + BodySize(b.body)
  }

  function BodySize(body: seq<Action>): nat
  {
    if body == [] then 0 else ActionSize(body[0]) + BodySize(body[1..])
  }

  function ActionSize(a: Action): nat
  {
    match a
    case Publish(_, _, _, callback) => 1 + CallbackSize(callback)
    case Subscribe(_, _, handler, _) => 3 + CallbackSize(handler)
    case StayConnected(b) => 1 + BlockSize(b)
    case Raise => 1
  }

  function CallbackSize(callback: Option<Block>): nat
  {
    match callback
    case None => 0
    case Some(b) => BlockSize(b)
  }

  function JobSize(job: Job): nat
  {
    match job
    case CallBlock(b) => BlockSize(b)
    case Send(_, _, _) => 0
    case Consume(_, _, handler, _) => 1 + BlockSize(handler)
    case Connect(inner) => 1 + JobSize(inner)
  }

  /** The handler call one delivery causes: none for the empty-queue sentinel. */
  function HandlingOf(headers: Headers, unpack: Value -> Value, unary: bool): seq<BlockCall>
  {
    match HandlerArguments(headers, unpack, unary)
    case None => []
    case Some(c) => [Handled(c)]
  }

  /** The handler calls a subscription makes for the deliveries `inbound`:
      one per message that is not the sentinel, in delivery order. */
  function Handlings(inbound: seq<Headers>, unpack: Value -> Value, unary: bool): (r: seq<BlockCall>)
    ensures |r| <= |inbound|
  {
    if inbound == [] then []
    else HandlingOf(inbound[0], unpack, unary) + Handlings(inbound[1..], unpack, unary)
  }

  /** Handling a non-empty run of messages after calls `log` is handling its
      first message, then the rest. */
  lemma HandlingsStep(log: seq<BlockCall>, inbound: seq<Headers>, unpack: Value -> Value, unary: bool)
    requires inbound != []
    ensures log + HandlingOf(inbound[0], unpack, unary) + Handlings(inbound[1..], unpack, unary) ==
            log + Handlings(inbound, unpack, unary)
  {
  }

  /** Only the sentinel is skipped: a run of sentinels reaches the handler not at
      all, and a run without one reaches it once per message, in order, with the
      arguments handle_bunny_message builds. */
  lemma {:induction false} HandlingsPerMessage(inbound: seq<Headers>, unpack: Value -> Value, unary: bool)
    ensures (forall i :: 0 <= i < |inbound| ==> Lookup(inbound[i], "payload") == QueueEmpty) ==>
              Handlings(inbound, unpack, unary) == []
    ensures (forall i :: 0 <= i < |inbound| ==> Lookup(inbound[i], "payload") != QueueEmpty) ==>
              |Handlings(inbound, unpack, unary)| == |inbound| &&
              forall i :: 0 <= i < |inbound| ==>
                Handlings(inbound, unpack, unary)[i] == Handled(HandlerArguments(inbound[i], unpack, unary).value)
  {
    if inbound != [] {
      HandlingsPerMessage(inbound[1..], unpack, unary);
      assert forall i :: 1 <= i < |inbound| ==> inbound[1..][i - 1] == inbound[i];
    }
  }

  /** Deliveries handled in two batches are handled as one batch. */
  lemma {:induction false} HandlingsAppend(a: seq<Headers>, b: seq<Headers>, unpack: Value -> Value, unary: bool)
    ensures Handlings(a + b, unpack, unary) == Handlings(a, unpack, unary) + Handlings(b, unpack, unary)
  {
    if a == [] {
      assert a + b == b;
    } else {
      assert (a + b)[1..] == a[1..] + b;
      HandlingsAppend(a[1..], b, unpack, unary);
    }
  }

  datatype Snapshot = Snapshot(connected: bool, starts: nat, stops: nat, qos: nat,
                              declared: seq<Declaration>, published: seq<Delivery>,
                              subscriptions: seq<Subscription>, broker: Broker)

  /** The broker client (Bunny::Client), seen through the calls the adapter makes on it. */
  class BunnyClient {
    const options: Options
    const broker: Broker
    var status: Status
    var starts: nat
    var stops: nat
    var qosCalls: nat
    var declared: seq<Declaration>
    var published: seq<Delivery>
    var subscriptions: seq<Subscription>

    /** Bunny.new(options): a client that has not connected yet. */
    constructor (options: Options, broker: Broker)
      ensures this.options == options && this.broker == broker
      ensures status == NotConnected && starts == 0 && stops == 0 && qosCalls == 0
      ensures declared == [] && published == [] && subscriptions == []
    {
      this.options := options;
      this.broker := broker;
      status := NotConnected;
      starts, stops, qosCalls := 0, 0, 0;
      declared, published, subscriptions := [], [], [];
    }

    method Start() returns (ok: bool)
      modifies this
      ensures ok == !broker.refusesStart
      ensures status == (if ok then Connected else old(status))
      ensures starts == old(starts) + 1 && stops == old(stops) && qosCalls == old(qosCalls)
      ensures declared == old(declared) && published == old(published) && subscriptions == old(subscriptions)
    {
      ok := !broker.refusesStart;
      if ok {
        status := Connected;
      }
      starts := starts + 1;
    }

    method Stop() returns (ok: bool)
      modifies this
      ensures ok == !broker.refusesStop
      ensures status == (if ok then NotConnected else old(status))
      ensures stops == old(stops) + 1 && starts == old(starts) && qosCalls == old(qosCalls)
      ensures declared == old(declared) && published == old(published) && subscriptions == old(subscriptions)
    {
      ok := !broker.refusesStop;
      if ok {
        status := NotConnected;
      }
      stops := stops + 1;
    }

    method Qos()
      modifies this
      ensures qosCalls == old(qosCalls) + 1
      ensures status == old(status) && starts == old(starts) && stops == old(stops)
      ensures declared == old(declared) && published == old(published) && subscriptions == old(subscriptions)
    {
      qosCalls := qosCalls + 1;
    }

    method Declare(queue: Value, options: Options)
      modifies this
      ensures declared == old(declared) + [Declaration(queue, options)]
      ensures status == old(status) && starts == old(starts) && stops == old(stops) && qosCalls == old(qosCalls)
      ensures published == old(published) && subscriptions == old(subscriptions)
    {
      declared := declared + [Declaration(queue, options)];
    }

    /** exchange.publish: the delivery is recorded unless the broker refuses it. */
    method PublishToExchange(d: Delivery) returns (ok: bool)
      modifies this
      ensures ok == !broker.refusesPublish
      ensures published == old(published) + (if ok then [d] else [])
      ensures status == old(status) && starts == old(starts) && stops == old(stops) && qosCalls == old(qosCalls)
      ensures declared == old(declared) && subscriptions == old(subscriptions)
    {
      ok := !broker.refusesPublish;
      if ok {
        published := published + [d];
      }
    }

    method SubscribeToQueue(queue: Value, options: Options)
      modifies this
      ensures subscriptions == old(subscriptions) + [Subscription(queue, options)]
      ensures status == old(status) && starts == old(starts) && stops == old(stops) && qosCalls == old(qosCalls)
      ensures declared == old(declared) && published == old(published)
    {
      subscriptions := subscriptions + [Subscription(queue, options)];
    }
  }

  /** Warren::Queue::BunnyAdapter with its class-level state. */
  class BunnyAdapter {
    const connection: Connection    // what `self.connection` answers
    const broker: Broker            // how the broker treats every client made here
    const pack: Value -> string     // Warren::MessageFilter.pack(payload).to_s
    const unpack: Value -> Value    // Warren::MessageFilter.unpack
    var stayConnected: bool         // @stay_connected (nil reads as false)
    var client: BunnyClient?        // @client
    var calls: seq<BlockCall>       // the calls made to caller's blocks so far

    constructor (connection: Connection, broker: Broker, pack: Value -> string, unpack: Value -> Value)
      ensures this.connection == connection && this.broker == broker
      ensures this.pack == pack && this.unpack == unpack
      ensures !stayConnected && client == null && calls == []
    {
      this.connection := connection;
      this.broker := broker;
      this.pack := pack;
      this.unpack := unpack;
      stayConnected := false;
      client := null;
      calls := [];
    }

    /** What the adapter's client looks like from outside: its status, its
        counters, its logs and the broker it talks to (an empty record before
        the first client exists). */
    function Snap(): Snapshot
      reads this, client
    {
      if client == null then Snapshot(false, 0, 0, 0, [], [], [], broker)
      else Snapshot(client.status == Connected, client.starts, client.stops, client.qosCalls,
                    client.declared, client.published, client.subscriptions, client.broker)
    }

    /** do_connect's opening line succeeds: the client is connected or the broker accepts start. */
    predicate WillStart()
      reads this, client
    {
      Snap().connected || !Snap().broker.refusesStart
    }

    /** The broker refuses nothing. */
    predicate Accepts()
      reads this, client
    {
      !Snap().broker.refusesStart && !Snap().broker.refusesStop && !Snap().broker.refusesPublish
    }

    /** The message publish hands to the exchange for `queue`: the caller's
        options plus the routing key and the persistence taken from :durable. */
    function DeliveryFor(queue: Value, body: string, options: Options): Delivery
    {
      Delivery(QueueOptions(connection.options), body,
               options + map["key" := queue, "persistent" := Lookup(connection.options, "durable")])
    }

    /** A body that only publishes, without callbacks, to queues that resolve. */
    predicate PlainPublishes(body: seq<Action>)
    {
      body == [] ||
      (body[0].Publish? && body[0].callback.None? && ResolveQueue(connection.options, body[0].queue).Ok? &&
       PlainPublishes(body[1..]))
    }

    /** A handler that does nothing of its own, or only publishes to a broker
        that refuses nothing: handling a message with it cannot raise. */
    predicate CannotFail(handler: Block)
      reads this, client
    {
      handler.body == [] || (PlainPublishes(handler.body) && Accepts())
    }

    /** The deliveries such a body sends. */
    function DeliveriesOf(body: seq<Action>): (r: seq<Delivery>)
      requires PlainPublishes(body)
      ensures |r| == |body|
    {
      if body == [] then []
      else [DeliveryFor(ResolveQueue(connection.options, body[0].queue).value, pack(body[0].payload), body[0].options)]
           + DeliveriesOf(body[1..])
    }

    /** Sending a non-empty plain body after the deliveries `log` is sending its
        first message, then the rest. */
    lemma DeliveriesStep(log: seq<Delivery>, body: seq<Action>)
      requires body != [] && PlainPublishes(body)
      ensures log + [DeliveryFor(ResolveQueue(connection.options, body[0].queue).value, pack(body[0].payload), body[0].options)]
              + DeliveriesOf(body[1..]) == log + DeliveriesOf(body)
    {
    }

    /** One delivery per publish of the body, in the body's order, each to its resolved queue. */
    lemma {:induction false} DeliveriesInOrder(body: seq<Action>)
      requires PlainPublishes(body)
      ensures forall i :: 0 <= i < |body| ==>
                body[i].Publish? && ResolveQueue(connection.options, body[i].queue).Ok? &&
                DeliveriesOf(body)[i] ==
                  DeliveryFor(ResolveQueue(connection.options, body[i].queue).value, pack(body[i].payload), body[i].options)
    {
      if body != [] {
        DeliveriesInOrder(body[1..]);
        assert forall i :: 1 <= i < |body| ==> body[1..][i - 1] == body[i];
      }
    }

    /** Nothing of the adapter or its client changed. */
    twostate predicate Untouched()
      reads this, client
    {
      unchanged(this) && (client != null ==> unchanged(client))
    }

    /** No QoS call, declaration, publish or subscription happened. */
    twostate predicate SameTraffic()
      reads this, client
    {
      && Snap().qos == old(Snap().qos)
      && Snap().declared == old(Snap().declared)
      && Snap().published == old(Snap().published)
      && Snap().subscriptions == old(Snap().subscriptions)
    }

    /** What subscribe's consumer block does when its handler does nothing of
        its own: one QoS call, the queue declared and subscribed, and one handler
        call per delivery that is not the sentinel, in order. */
    twostate predicate ConsumedQuietly(queue: Value, options: Options, handler: Block, inbound: seq<Headers>)
      reads this, client
    {
      && calls == old(calls) + Handlings(inbound, unpack, handler.unary)
      && Snap().qos == old(Snap().qos) + 1
      && Snap().declared == old(Snap().declared) + [Declaration(queue, QueueOptions(connection.options))]
      && Snap().subscriptions == old(Snap().subscriptions) + [Subscription(queue, options)]
      && Snap().published == old(Snap().published)
    }

    /** What every run of a caller's block keeps: the flag is back to its value
        on entry, the client is the same one (or a new one where there was none)
        and talks to the same broker, the logs only grow, and while the flag was
        set on entry no stop happened and a connected client stayed connected
        without a new start. */
    twostate predicate Steady()
      reads this, client
    {
      && stayConnected == old(stayConnected)
      && (old(client) != null ==> client == old(client))
      && (old(client) == null ==> client == null || fresh(client))
      && Snap().broker == old(Snap().broker)
      && old(calls) <= calls
      && old(Snap().published) <= Snap().published
      && old(Snap().declared) <= Snap().declared
      && old(Snap().subscriptions) <= Snap().subscriptions
      && old(Snap().qos) <= Snap().qos
      && old(Snap().starts) <= Snap().starts
      && (Snap().connected ==> old(Snap().connected) || (old(Snap().starts) < Snap().starts && !Snap().broker.refusesStart))
      && (old(stayConnected) ==> Snap().stops == old(Snap().stops))
      && (old(stayConnected) && old(Snap().connected) ==> Snap().connected && Snap().starts == old(Snap().starts))
    }

    /** client: the memoised broker client, built from client_options on first use. */
    method Client() returns (c: BunnyClient)
      modifies this`client
      ensures client == c
      ensures old(client) != null ==> c == old(client)
      ensures old(client) == null ==> fresh(c) && c.options == ClientOptions(connection.options)
      ensures old(client) == null ==> c.broker == broker && c.status == NotConnected
      ensures old(client) == null ==> c.starts == 0 && c.stops == 0 && c.qosCalls == 0
      ensures old(client) == null ==> c.declared == [] && c.published == [] && c.subscriptions == []
    {
      if client == null {
        client := new BunnyClient(ClientOptions(connection.options), broker);
      }
      c := client;
    }

    /** reset: stop the client if there is one, ignoring a refused stop, and forget it. */
    method Reset()
      modifies this`client, client
      ensures client == null
      ensures old(client) != null ==> old(client).stops == old(client.stops) + 1
      ensures old(client) != null ==> old(client).starts == old(client.starts)
      ensures old(client) != null && !old(client).broker.refusesStop ==> old(client).status == NotConnected
      ensures old(client) != null && old(client).broker.refusesStop ==> old(client).status == old(client.status)
      ensures old(client) != null ==>
                old(client).qosCalls == old(client.qosCalls) && old(client).declared == old(client.declared) &&
                old(client).published == old(client.published) && old(client).subscriptions == old(client.subscriptions)
    {
      if client != null {
        var _ := client.Stop();
      }
      client := null;
    }

    /** Runs the actions of a block in order, stopping at the first exception. */
    method Run(body: seq<Action>) returns (r: Result<Value>)
      modifies this, client
      decreases BodySize(body), 6
      ensures Steady()
      ensures r.Ok? ==> r == Ok(Nil)
      ensures body == [] ==> r == Ok(Nil) && Untouched()
      ensures body != [] && body[0].Raise? ==> r == Err(Raised) && Untouched()
      ensures Raise in body ==> r.Err?
      ensures body != [] && body[0].Publish? && body[0].callback.None? &&
              ResolveQueue(connection.options, body[0].queue).Ok? && old(Accepts()) ==>
                |old(Snap().published)| < |Snap().published| &&
                Snap().published[|old(Snap().published)|] ==
                  DeliveryFor(ResolveQueue(connection.options, body[0].queue).value, pack(body[0].payload), body[0].options)
      ensures PlainPublishes(body) ==> calls == old(calls)
      ensures PlainPublishes(body) && old(Accepts()) ==>
                r == Ok(Nil) && Snap().published == old(Snap().published) + DeliveriesOf(body)
    {
      if body == [] {
        return Ok(Nil);
      }
      ghost var sent := Snap().published;
      r := Perform(body[0]);
      if r.Ok? {
        r := Run(body[1..]);
        if PlainPublishes(body) {
          DeliveriesStep(sent, body);
        }
      }
    }

    method Perform(a: Action) returns (r: Result<Value>)
      modifies this, client
      decreases ActionSize(a), 5
      ensures Steady()
      ensures a.Raise? ==> r == Err(Raised) && Untouched()
      ensures a.Publish? && a.callback.None? ==> calls == old(calls)
      ensures a.Publish? && ResolveQueue(connection.options, a.queue).Ok? && old(WillStart()) && !Snap().broker.refusesPublish ==>
                |old(Snap().published)| < |Snap().published| &&
                Snap().published[|old(Snap().published)|] ==
                  DeliveryFor(ResolveQueue(connection.options, a.queue).value, pack(a.payload), a.options)
      ensures a.StayConnected? ==> |old(calls)| < |calls| && calls[|old(calls)|] == Yielded(a.block.unary, true)
      ensures a.StayConnected? && Raise in a.block.body ==> r.Err?
      ensures a.Subscribe? && a.handler.None? ==> r == Err(NoBlockGiven) && Untouched()
      ensures a.Subscribe? && a.handler.Some? && ResolveQueue(connection.options, a.queue).Ok? && old(WillStart()) ==>
                |old(Snap().subscriptions)| < |Snap().subscriptions| &&
                Snap().subscriptions[|old(Snap().subscriptions)|] == Subscription(ResolveQueue(connection.options, a.queue).value, a.options)
      ensures a.Publish? && a.callback.None? && ResolveQueue(connection.options, a.queue).Ok? && old(Accepts()) ==>
                r == Ok(Bool(true)) &&
                Snap().published == old(Snap().published) +
                  [DeliveryFor(ResolveQueue(connection.options, a.queue).value, pack(a.payload), a.options)]
    {
      match a
      case Publish(queue, payload, options, callback) =>
        r := Publish(queue, payload, options, callback);
      case Subscribe(queue, options, handler, inbound) =>
        r := Subscribe(queue, options, handler, inbound);
      case StayConnected(b) =>
        ghost var connectedAtExit;
        r, connectedAtExit := StayConnected(b);
      case Raise =>
        r := Err(Raised);
    }

    /** publish: resolve the queue, pack the payload, send it inside do_connect,
        and then answer true or the callback's value. */
    method Publish(queue: Value, payload: Value, options: Options, callback: Option<Block>) returns (r: Result<Value>)
      modifies this, client
      decreases 1 + CallbackSize(callback), 4
      ensures Steady()
      ensures ResolveQueue(connection.options, queue).Err? ==>
                r == Err(ResolveQueue(connection.options, queue).error) && Untouched()
      ensures r.Ok? ==> r == Ok(if callback.None? then Bool(true) else callback.value.value)
      ensures callback.None? ==> calls == old(calls)
      // a refused start propagates: nothing is sent and nothing is stopped
      ensures ResolveQueue(connection.options, queue).Ok? && !old(WillStart()) ==>
                r == Err(TransportError("start")) && Snap().stops == old(Snap().stops) && Snap().starts == old(Snap().starts) + 1 &&
                calls == old(calls) && SameTraffic()
      // a refused exchange publish propagates from the block: no stop after it
      ensures ResolveQueue(connection.options, queue).Ok? && old(WillStart()) && Snap().broker.refusesPublish ==>
                r == Err(TransportError("publish")) && Snap().connected &&
                Snap().stops == old(Snap().stops) && Snap().published == old(Snap().published) &&
                Snap().declared == old(Snap().declared) + [Declaration(ResolveQueue(connection.options, queue).value, QueueOptions(connection.options))]
      ensures ResolveQueue(connection.options, queue).Ok? && old(WillStart()) && !Snap().broker.refusesPublish ==>
                |old(Snap().published)| < |Snap().published| &&
                Snap().published[|old(Snap().published)|] ==
                  DeliveryFor(ResolveQueue(connection.options, queue).value, pack(payload), options)
      // a sent message with a callback that does nothing of its own: the whole effect
      ensures ResolveQueue(connection.options, queue).Ok? && old(WillStart()) && !Snap().broker.refusesPublish &&
              (callback.None? || callback.value.body == []) ==>
                Snap().published == old(Snap().published) +
                  [DeliveryFor(ResolveQueue(connection.options, queue).value, pack(payload), options)] &&
                Snap().declared == old(Snap().declared) +
                  [Declaration(ResolveQueue(connection.options, queue).value, QueueOptions(connection.options))] &&
                Snap().starts == old(Snap().starts) + (if old(Snap().connected) then 0 else 1) &&
                Snap().stops == old(Snap().stops) + (if old(stayConnected) then 0 else 1) &&
                r == (if !old(stayConnected) && Snap().broker.refusesStop then Err(TransportError("stop"))
                      else Ok(if callback.None? then Bool(true) else callback.value.value)) &&
                (!old(stayConnected) && !Snap().broker.refusesStop ==> !Snap().connected)
      // a callback that raises propagates its exception
      ensures ResolveQueue(connection.options, queue).Ok? && old(WillStart()) && !Snap().broker.refusesPublish &&
              (old(stayConnected) || !Snap().broker.refusesStop) &&
              callback.Some? && callback.value.body != [] && callback.value.body[0].Raise? ==>
                r == Err(Raised)
    {
      var name := ResolveQueue(connection.options, queue);
      if name.Err? {
        return Err(name.error);
      }
      var msg := pack(payload);
      ghost var ran, stopsAfterBody;
      r, ran, stopsAfterBody := DoConnect(Send(name.value, msg, options));
      if r.Ok? && callback.Some? {
        r := Callback(callback.value);
      }
    }

    /** subscribe: refuse a missing handler, resolve the queue, and consume
        inside stay_connected { do_connect { ... } }. */
    method Subscribe(queue: Value, options: Options, handler: Option<Block>, inbound: seq<Headers>)
      returns (r: Result<Value>)
      modifies this, client
      decreases 3 + CallbackSize(handler), 4
      ensures Steady()
      ensures handler.None? ==> r == Err(NoBlockGiven) && Untouched()
      ensures handler.Some? && ResolveQueue(connection.options, queue).Err? ==>
                r == Err(ResolveQueue(connection.options, queue).error) && Untouched()
      ensures r.Ok? ==> r == Ok(Bool(true))
      // a refused start: nothing subscribed, nothing handled, nothing stopped
      ensures handler.Some? && ResolveQueue(connection.options, queue).Ok? && !old(WillStart()) ==>
                r == Err(TransportError("start")) && Snap().stops == old(Snap().stops) && calls == old(calls) && SameTraffic()
      // once started, the client is stopped exactly once in all iff no enclosing scope keeps it
      ensures handler.Some? && ResolveQueue(connection.options, queue).Ok? && old(WillStart()) ==>
                Snap().stops == old(Snap().stops) + (if old(stayConnected) then 0 else 1) &&
                Snap().starts == old(Snap().starts) + (if old(Snap().connected) then 0 else 1) &&
                |old(Snap().subscriptions)| < |Snap().subscriptions| &&
                Snap().subscriptions[|old(Snap().subscriptions)|] == Subscription(ResolveQueue(connection.options, queue).value, options)
      ensures handler.Some? && ResolveQueue(connection.options, queue).Ok? && old(WillStart()) &&
              !old(stayConnected) && !Snap().broker.refusesStop ==>
                client != null && client.status == NotConnected
      // a handler that does nothing of its own is called once per message, in order
      ensures handler.Some? && ResolveQueue(connection.options, queue).Ok? && old(WillStart()) && handler.value.body == [] ==>
                ConsumedQuietly(ResolveQueue(connection.options, queue).value, options, handler.value, inbound) &&
                r == (if !old(stayConnected) && Snap().broker.refusesStop then Err(TransportError("stop")) else Ok(Bool(true)))
      // a handler that only publishes is also called once per message, in order
      ensures handler.Some? && ResolveQueue(connection.options, queue).Ok? && PlainPublishes(handler.value.body) && old(Accepts()) ==>
                r == Ok(Bool(true)) && calls == old(calls) + Handlings(inbound, unpack, handler.value.unary)
    {
      if handler.None? {
        return Err(NoBlockGiven);
      }
      var name := ResolveQueue(connection.options, queue);
      if name.Err? {
        return Err(name.error);
      }
      var job := Connect(Consume(name.value, options, handler.value, inbound));
      assert JobSize(job) == 2 + CallbackSize(handler);
      ghost var bodyResult, connectedAtExit;
      r, bodyResult, connectedAtExit := Scope(job);
    }

    /** stay_connected: run the block with the flag set, then restore the flag and
        release the client once no enclosing scope needs it. `connectedAtExit`
        is the client's status when the block has finished. */
    method StayConnected(b: Block) returns (r: Result<Value>, ghost connectedAtExit: bool)
      modifies this, client
      decreases 1 + BlockSize(b), 4
      ensures Steady()
      ensures |old(calls)| < |calls| && calls[|old(calls)|] == Yielded(b.unary, true)
      ensures r.Ok? ==> r == Ok(b.value)
      ensures Raise in b.body ==> r.Err?
      ensures Snap().stops == old(Snap().stops) + (if !old(stayConnected) && connectedAtExit then 1 else 0)
      ensures !old(stayConnected) && connectedAtExit && Snap().broker.refusesStop ==> r == Err(TransportError("stop"))
      ensures old(Snap().connected) ==> connectedAtExit && client == old(client) && client.starts == old(client.starts)
      ensures !old(stayConnected) ==> client != null
      ensures !old(stayConnected) && Snap().broker.refusesStop ==> connectedAtExit == Snap().connected
      ensures connectedAtExit ==> old(Snap().connected) || (old(Snap().starts) < Snap().starts && !Snap().broker.refusesStart)
      ensures !old(stayConnected) && !Snap().broker.refusesStop ==> client != null && client.status == NotConnected
      // a block that does nothing, or raises at once: called once, and released only if connected
      ensures b.body == [] || b.body[0].Raise? ==>
                connectedAtExit == old(Snap().connected) && calls == old(calls) + [Yielded(b.unary, true)] &&
                SameTraffic() && Snap().starts == old(Snap().starts)
      ensures (b.body == [] || b.body[0].Raise?) && (old(stayConnected) || !old(Snap().connected) || !Snap().broker.refusesStop) ==>
                r == (if b.body == [] then Ok(b.value) else Err(Raised))
      // a block of plain publishes sends every message, in order, and answers its value
      ensures PlainPublishes(b.body) && old(Accepts()) ==>
                r == Ok(b.value) && Snap().published == old(Snap().published) + DeliveriesOf(b.body)
    {
      ghost var bodyResult;
      r, bodyResult, connectedAtExit := Scope(CallBlock(b));
    }

    /** The body of stay_connected with its ensure clause: `bodyResult` is what
        the job answered and `connectedAtExit` the client's status after it. */
    method Scope(job: Job) returns (r: Result<Value>, ghost bodyResult: Result<Value>, ghost connectedAtExit: bool)
      modifies this, client
      decreases JobSize(job), 3
      ensures Steady()
      ensures Snap().stops == old(Snap().stops) + (if !old(stayConnected) && connectedAtExit then 1 else 0)
      ensures r == (if !old(stayConnected) && connectedAtExit && Snap().broker.refusesStop
                    then Err(TransportError("stop")) else bodyResult)
      ensures old(Snap().connected) ==> connectedAtExit && client == old(client) && client.starts == old(client.starts)
      ensures !old(stayConnected) ==> client != null
      ensures !old(stayConnected) && Snap().broker.refusesStop ==> connectedAtExit == Snap().connected
      ensures connectedAtExit ==> old(Snap().connected) || (old(Snap().starts) < Snap().starts && !Snap().broker.refusesStart)
      ensures !old(stayConnected) && !Snap().broker.refusesStop ==> client != null && client.status == NotConnected
      ensures job.CallBlock? ==> |old(calls)| < |calls| && calls[|old(calls)|] == Yielded(job.block.unary, true)
      ensures job.CallBlock? && bodyResult.Ok? ==> bodyResult == Ok(job.block.value)
      ensures job.CallBlock? && Raise in job.block.body ==> bodyResult.Err?
      ensures job.CallBlock? && (job.block.body == [] || job.block.body[0].Raise?) ==>
                bodyResult == (if job.block.body == [] then Ok(job.block.value) else Err(Raised)) &&
                connectedAtExit == old(Snap().connected) && calls == old(calls) + [Yielded(job.block.unary, true)] &&
                SameTraffic() && Snap().starts == old(Snap().starts)
      ensures job.CallBlock? && PlainPublishes(job.block.body) && old(Accepts()) ==>
                bodyResult == Ok(job.block.value) && Snap().published == old(Snap().published) + DeliveriesOf(job.block.body)
      ensures job.Connect? && bodyResult.Ok? ==> bodyResult == Ok(Bool(true))
      ensures job.Connect? && !old(WillStart()) ==>
                bodyResult == Err(TransportError("start")) && !connectedAtExit && calls == old(calls) && SameTraffic()
      ensures job.Connect? && old(WillStart()) ==>
                connectedAtExit && Snap().starts == old(Snap().starts) + (if old(Snap().connected) then 0 else 1)
      ensures job.Connect? && job.job.Consume? && old(WillStart()) ==>
                |old(Snap().subscriptions)| < |Snap().subscriptions| &&
                Snap().subscriptions[|old(Snap().subscriptions)|] == Subscription(job.job.queue, job.job.options)
      ensures job.Connect? && job.job.Consume? && job.job.handler.body == [] && old(WillStart()) ==>
                bodyResult == Ok(Bool(true)) &&
                ConsumedQuietly(job.job.queue, job.job.options, job.job.handler, job.job.inbound)
      ensures job.Connect? && job.job.Consume? && PlainPublishes(job.job.handler.body) && old(Accepts()) ==>
                bodyResult == Ok(Bool(true)) && calls == old(calls) + Handlings(job.job.inbound, unpack, job.job.handler.unary)
    {
      var saved := stayConnected;
      stayConnected := true;
      r := Exec(job);
      bodyResult, connectedAtExit := r, Snap().connected;
      var released := Restore(saved);
      if !released {
        r := Err(TransportError("stop"));
      }
    }

    /** stay_connected's ensure clause: restore the saved flag, then stop the
        client if no scope is left and it is connected; `ok` is false when the
        broker refuses that stop. */
    method Restore(saved: bool) returns (ok: bool)
      modifies this`stayConnected, this`client, client
      ensures stayConnected == saved
      ensures saved ==> ok && client == old(client) && (client != null ==> unchanged(client))
      ensures !saved ==> client != null
      ensures old(client) != null ==> client == old(client)
      ensures old(client) == null ==> client == null || fresh(client)
      ensures !saved ==>
                Snap() == old(Snap()).(stops := old(Snap()).stops + (if old(Snap()).connected then 1 else 0),
                                       connected := old(Snap()).connected && old(Snap()).broker.refusesStop)
      ensures ok == (saved || !old(Snap()).connected || !old(Snap()).broker.refusesStop)
      ensures Snap().starts == old(Snap().starts) && Snap().broker == old(Snap().broker)
      ensures Snap().stops == old(Snap().stops) + (if !saved && old(Snap().connected) then 1 else 0)
      ensures SameTraffic()
    {
      stayConnected := saved;
      ok := true;
      if !stayConnected {
        var c := Client();
        if c.status == Connected {
          ok := c.Stop();
        }
      }
    }

    /** do_connect up to its answer `true`: start the client unless connected,
        run the job, stop the client unless staying connected. An exception from
        the job propagates before any stop. `ran` is the job's own answer (None
        when the start was refused) and `stopsAfterBody` the stop count after it.
        The callback branch of the answer is in Publish, the only caller that passes one. */
    method DoConnect(job: Job) returns (r: Result<Value>, ghost ran: Option<Result<Value>>, ghost stopsAfterBody: nat)
      modifies this, client
      decreases JobSize(job), 2
      ensures Steady()
      ensures r.Ok? ==> r == Ok(Bool(true))
      ensures ran.None? <==> !old(WillStart())
      ensures ran.None? ==>
                r == Err(TransportError("start")) && !Snap().connected && Snap().stops == old(Snap().stops) &&
                Snap().starts == old(Snap().starts) + 1 && calls == old(calls) && SameTraffic()
      ensures ran.Some? && ran.value.Err? ==> r == ran.value && Snap().stops == stopsAfterBody
      ensures ran.Some? && ran.value.Ok? ==>
                Snap().stops == stopsAfterBody + (if stayConnected then 0 else 1) &&
                r == (if !stayConnected && Snap().broker.refusesStop then Err(TransportError("stop")) else Ok(Bool(true)))
      ensures ran.Some? && ran.value.Ok? && !stayConnected && !Snap().broker.refusesStop ==> !Snap().connected
      ensures ran.Some? && stayConnected ==>
                stopsAfterBody == old(Snap().stops) && Snap().connected &&
                Snap().starts == old(Snap().starts) + (if old(Snap().connected) then 0 else 1)
      // publish's block
      ensures job.Send? && ran.Some? ==>
                stopsAfterBody == old(Snap().stops) &&
                ran.value == (if Snap().broker.refusesPublish then Err(TransportError("publish")) else Ok(Nil))
      ensures job.Send? && ran.Some? && ran.value.Err? ==> Snap().connected
      ensures job.Send? ==>
                calls == old(calls) && Snap().starts == old(Snap().starts) + (if old(Snap().connected) then 0 else 1) &&
                Snap().published == old(Snap().published) +
                  (if old(WillStart()) && !Snap().broker.refusesPublish then [DeliveryFor(job.queue, job.body, job.options)] else []) &&
                Snap().declared == old(Snap().declared) +
                  (if old(WillStart()) then [Declaration(job.queue, QueueOptions(connection.options))] else [])
      // subscribe's block, run with the flag set
      ensures job.Consume? && ran.Some? && stayConnected ==>
                |old(Snap().subscriptions)| < |Snap().subscriptions| &&
                Snap().subscriptions[|old(Snap().subscriptions)|] == Subscription(job.queue, job.options)
      ensures job.Consume? && job.handler.body == [] && ran.Some? && stayConnected ==>
                ran.value == Ok(Nil) && ConsumedQuietly(job.queue, job.options, job.handler, job.inbound)
      ensures job.Consume? && PlainPublishes(job.handler.body) && old(Accepts()) && stayConnected ==>
                ran == Some(Ok(Nil)) && calls == old(calls) + Handlings(job.inbound, unpack, job.handler.unary)
    {
      ran, stopsAfterBody := None, Snap().stops;
      var started := Open();
      if !started {
        return Err(TransportError("start")), ran, stopsAfterBody;
      }
      r := Exec(job);
      ran, stopsAfterBody := Some(r), Snap().stops;
      if r.Err? {
        return;
      }
      var stopped := StopUnlessStaying();
      if !stopped {
        return Err(TransportError("stop")), ran, stopsAfterBody;
      }
      r := Ok(Bool(true));
    }

    /** The opening line of do_connect: start the client if it is not connected. */
    method Open() returns (ok: bool)
      modifies this`client, client
      ensures client != null
      ensures old(client) != null ==> client == old(client)
      ensures old(client) == null ==> fresh(client)
      ensures Snap().broker == old(Snap().broker)
      ensures ok == old(WillStart())
      ensures ok ==> Snap().connected
      ensures !ok ==> !Snap().connected
      ensures Snap().starts == old(Snap().starts) + (if old(Snap().connected) then 0 else 1)
      ensures Snap().stops == old(Snap().stops) && SameTraffic()
    {
      var c := Client();
      ok := true;
      if c.status == NotConnected {
        ok := c.Start();
      }
    }

    /** The closing line of do_connect: stop the client unless staying connected. */
    method StopUnlessStaying() returns (ok: bool)
      modifies this`client, client
      ensures client != null
      ensures old(client) != null ==> client == old(client)
      ensures old(client) == null ==> fresh(client)
      ensures Snap().broker == old(Snap().broker)
      ensures stayConnected ==> ok && Snap().stops == old(Snap().stops) && Snap().connected == old(Snap().connected)
      ensures !stayConnected ==> ok == !Snap().broker.refusesStop && Snap().stops == old(Snap().stops) + 1
      ensures !stayConnected ==> Snap().connected == (old(Snap().connected) && Snap().broker.refusesStop)
      ensures Snap().starts == old(Snap().starts) && SameTraffic()
    {
      var c := Client();
      ok := true;
      if !stayConnected {
        ok := c.Stop();
      }
    }

    /** `callback.call`: run the callback's actions and answer its value. */
    method Callback(b: Block) returns (r: Result<Value>)
      modifies this, client
      decreases BlockSize(b), 0
      ensures Steady()
      ensures r.Ok? ==> r == Ok(b.value)
      ensures b.body == [] ==> r == Ok(b.value) && Untouched()
      ensures b.body != [] && b.body[0].Raise? ==> r == Err(Raised) && Untouched()
      ensures Raise in b.body ==> r.Err?
    {
      r := Run(b.body);
      if r.Ok? {
        r := Ok(b.value);
      }
    }

    method Exec(job: Job) returns (r: Result<Value>)
      modifies this, client
      decreases JobSize(job), 1
      ensures Steady()
      // stay_connected's block
      ensures job.CallBlock? ==> |old(calls)| < |calls| && calls[|old(calls)|] == Yielded(job.block.unary, stayConnected)
      ensures job.CallBlock? && r.Ok? ==> r == Ok(job.block.value)
      ensures job.CallBlock? && Raise in job.block.body ==> r.Err?
      ensures job.CallBlock? && (job.block.body == [] || job.block.body[0].Raise?) ==>
                r == (if job.block.body == [] then Ok(job.block.value) else Err(Raised)) &&
                calls == old(calls) + [Yielded(job.block.unary, stayConnected)] &&
                client == old(client) && (client != null ==> unchanged(client))
      ensures job.CallBlock? && PlainPublishes(job.block.body) && old(Accepts()) ==>
                r == Ok(job.block.value) && Snap().published == old(Snap().published) + DeliveriesOf(job.block.body)
      // publish's block: declare the queue, then send to the direct exchange
      ensures job.Send? ==>
                client != null && calls == old(calls) && Snap().stops == old(Snap().stops) && Snap().starts == old(Snap().starts) &&
                Snap().connected == old(Snap().connected) && Snap().qos == old(Snap().qos) && Snap().subscriptions == old(Snap().subscriptions)
      ensures job.Send? ==> Snap().declared == old(Snap().declared) + [Declaration(job.queue, QueueOptions(connection.options))]
      ensures job.Send? ==>
                r == (if Snap().broker.refusesPublish then Err(TransportError("publish")) else Ok(Nil)) &&
                Snap().published == old(Snap().published) +
                  (if Snap().broker.refusesPublish then [] else [DeliveryFor(job.queue, job.body, job.options)])
      // subscribe's do_connect block
      ensures job.Consume? ==>
                |old(Snap().subscriptions)| < |Snap().subscriptions| &&
                Snap().subscriptions[|old(Snap().subscriptions)|] == Subscription(job.queue, job.options)
      ensures job.Consume? && job.handler.body == [] ==>
                r == Ok(Nil) && ConsumedQuietly(job.queue, job.options, job.handler, job.inbound) &&
                Snap().stops == old(Snap().stops) && Snap().starts == old(Snap().starts) && Snap().connected == old(Snap().connected)
      ensures job.Consume? && PlainPublishes(job.handler.body) && old(Accepts()) ==>
                r == Ok(Nil) && calls == old(calls) + Handlings(job.inbound, unpack, job.handler.unary)
      // subscribe's stay_connected block: do_connect around the consumer
      ensures job.Connect? && r.Ok? ==> r == Ok(Bool(true))
      ensures job.Connect? && !old(WillStart()) ==>
                r == Err(TransportError("start")) && !Snap().connected && Snap().stops == old(Snap().stops) &&
                calls == old(calls) && SameTraffic()
      ensures job.Connect? && old(WillStart()) && stayConnected ==>
                Snap().connected && Snap().starts == old(Snap().starts) + (if old(Snap().connected) then 0 else 1)
      ensures job.Connect? && job.job.Consume? && old(WillStart()) && stayConnected ==>
                |old(Snap().subscriptions)| < |Snap().subscriptions| &&
                Snap().subscriptions[|old(Snap().subscriptions)|] == Subscription(job.job.queue, job.job.options)
      ensures job.Connect? && job.job.Consume? && job.job.handler.body == [] && old(WillStart()) && stayConnected ==>
                r == Ok(Bool(true)) && ConsumedQuietly(job.job.queue, job.job.options, job.job.handler, job.job.inbound)
      ensures job.Connect? && job.job.Consume? && PlainPublishes(job.job.handler.body) && old(Accepts()) && stayConnected ==>
                r == Ok(Bool(true)) && calls == old(calls) + Handlings(job.job.inbound, unpack, job.job.handler.unary)
    {
      match job
      case CallBlock(b) =>
        // blk.arity == 1 ? blk.call(self) : blk.call
        calls := calls + [Yielded(b.unary, stayConnected)];
        r := Run(b.body);
        if r.Ok? {
          r := Ok(b.value);
        }
      case Send(queue, body, options) =>
        var c := Client();
        c.Declare(queue, QueueOptions(connection.options));
        var sent := c.PublishToExchange(DeliveryFor(queue, body, options));
        r := if sent then Ok(Nil) else Err(TransportError("publish"));
      case Consume(queue, options, handler, inbound) =>
        r := ConsumeMessages(queue, options, handler, inbound);
      case Connect(inner) =>
        ghost var ran, stopsAfterBody;
        r, ran, stopsAfterBody := DoConnect(inner);
    }

    /** subscribe's do_connect block: set the QoS, subscribe to the queue and hand
        every inbound message, in order, to handle_bunny_message. */
    method ConsumeMessages(queue: Value, options: Options, handler: Block, inbound: seq<Headers>) returns (r: Result<Value>)
      modifies this, client
      decreases 1 + BlockSize(handler), 0
      ensures Steady()
      ensures r.Ok? ==> r == Ok(Nil)
      ensures old(Snap().qos) < Snap().qos
      ensures |old(Snap().declared)| < |Snap().declared| &&
              Snap().declared[|old(Snap().declared)|] == Declaration(queue, QueueOptions(connection.options))
      ensures |old(Snap().subscriptions)| < |Snap().subscriptions| &&
              Snap().subscriptions[|old(Snap().subscriptions)|] == Subscription(queue, options)
      ensures handler.body == [] ==>
                r == Ok(Nil) && ConsumedQuietly(queue, options, handler, inbound) &&
                Snap().stops == old(Snap().stops) && Snap().starts == old(Snap().starts) && Snap().connected == old(Snap().connected)
      ensures PlainPublishes(handler.body) && old(Accepts()) ==>
                r == Ok(Nil) && calls == old(calls) + Handlings(inbound, unpack, handler.unary)
    {
      var c := Client();
      c.Qos();
      c.Declare(queue, QueueOptions(connection.options));
      c.SubscribeToQueue(queue, options);
      r := Deliver(handler, inbound);
    }

    /** The block subscribe hands to the queue: each inbound message, in order,
        goes to handle_bunny_message; an exception from the handler ends the run. */
    method Deliver(handler: Block, inbound: seq<Headers>) returns (r: Result<Value>)
      modifies this, client
      decreases BlockSize(handler), 1, |inbound|
      ensures Steady()
      ensures r.Ok? ==> r == Ok(Nil)
      ensures old(CannotFail(handler)) ==> r == Ok(Nil) && calls == old(calls) + Handlings(inbound, unpack, handler.unary)
      ensures handler.body == [] ==> client == old(client) && (client != null ==> unchanged(client))
    {
      if inbound == [] {
        return Ok(Nil);
      }
      ghost var quiet := CannotFail(handler);
      var handled := HandleMessage(inbound[0], handler);
      if handled.Err? {
        return handled;
      }
      r := Deliver(handler, inbound[1..]);
      if quiet {
        HandlingsStep(old(calls), inbound, unpack, handler.unary);
      }
    }

    /** handle_bunny_message: take the payload out of the headers, skip the
        empty-queue sentinel, and call the handler with as many arguments as it takes. */
    method HandleMessage(headers: Headers, handler: Block) returns (r: Result<Value>)
      modifies this, client
      decreases BlockSize(handler), 0
      ensures Steady()
      ensures HandlerArguments(headers, unpack, handler.unary).None? ==> r == Ok(Nil) && Untouched()
      ensures HandlerArguments(headers, unpack, handler.unary).Some? ==>
                |old(calls)| < |calls| &&
                calls[|old(calls)|] == Handled(HandlerArguments(headers, unpack, handler.unary).value)
      ensures HandlerArguments(headers, unpack, handler.unary).Some? && r.Ok? ==> r == Ok(handler.value)
      ensures HandlerArguments(headers, unpack, handler.unary).Some? && Raise in handler.body ==> r.Err?
      ensures PlainPublishes(handler.body) ==> calls == old(calls) + HandlingOf(headers, unpack, handler.unary)
      ensures old(CannotFail(handler)) ==> r.Ok? && CannotFail(handler)
      ensures handler.body == [] || handler.body[0].Raise? ==>
                calls == old(calls) + HandlingOf(headers, unpack, handler.unary) &&
                client == old(client) && (client != null ==> unchanged(client)) &&
                r == (if HandlerArguments(headers, unpack, handler.unary).None? then Ok(Nil)
                      else if handler.body == [] then Ok(handler.value) else Err(Raised))
    {
      var (payload, rest) := TakePayload(headers);
      if payload == QueueEmpty {
        return Ok(Nil);
      }
      var decoded := unpack(payload);
      var call := if handler.unary then WithPayload(decoded) else WithPayloadAndHeaders(decoded, rest);
      calls := calls + [Handled(call)];
      r := Run(handler.body);
      if r.Ok? {
        r := Ok(handler.value);
      }
    }
  }
}
