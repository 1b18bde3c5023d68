# Warren queue facade and Bunny adapter, in Dafny

Warren is a small Ruby client for an AMQP message broker. This project models two parts of it:

- **The Bunny adapter** (`Warren::Queue::BunnyAdapter`). It owns a memoised broker client. It also owns the process-wide stay-connected flag. It implements publish, subscribe, stay_connected, client and reset on top of `do_connect`. The model is a class `Bunny.BunnyAdapter` whose fields are the adapter's class-level state:
  - `stayConnected` stands for `@stay_connected`.
  - `client` stands for `@client`.
  - `calls` is a log of the calls the adapter made to caller's blocks.

  The broker client is a class `Bunny.BunnyClient`. It has a status, counters of `start` and `stop` calls, and logs of queue declarations, publishes and subscriptions. A `Broker` value says whether the broker refuses `start`, `stop` or an exchange publish, so transport failures are part of the model. The method contracts read the client's state through one snapshot value, `Snap()`.
- **The adapter's read-only helpers** (module `BunnyHelpers`). They are:
  - the required-field check;
  - the resolution of the `:default` queue name;
  - the split of the connection options into client options and queue options;
  - the arguments a subscription handler receives.
- **The `Warren::Queue` facade** (module `WarrenQueue`). The class `Queue` holds `@@connection`, `@@adapter` and `@@logger`. It has the setters and lazy getters of these three, and the five forwarding methods. Each forwarding method checks `@@adapter.respond_to?(op)` before forwarding. An adapter is an `AdapterClass` value: the operations it defines, and whether it subclasses `Warren::Queue`. A subclass inherits the facade's five class methods, so it responds to all five.

Blocks are data. A caller's block is a `Block`:
- whether it declares exactly one parameter (Ruby `arity == 1`);
- a list of `Action`s: publish, subscribe, stay_connected, or raise;
- the value it returns.

The adapter runs a block with the mutually recursive methods `Run`, `Perform`, `Scope`, `DoConnect` and `Exec`. A run stops at the first exception. Exceptions are results (`Values.Result`), never preconditions.

Every method that runs a block keeps `Steady()`:
- The flag is back to its value on entry, on every exit path.
- The client is the one there was, or a fresh one where there was none.
- The logs only grow.
- While the flag was set on entry, nothing stops the client, and a connected client stays connected without a new start.

The stay_connected contracts build on this. Starting from a connected client with the flag clear, they promise exactly one stop in all, made when the outermost scope exits.

## Model

| member | source | states |
|---|---|---|
| `BunnyHelpers.FirstMissing` | lib/warren/adapters/bunny_adapter.rb:12-16 | The result is the position of the first required key the options lack. Every earlier key is present, and `|keys|` means none is missing. |
| `BunnyHelpers.Capitalize` | lib/warren/adapters/bunny_adapter.rb:14 | `to_s.capitalize` on ASCII. The first letter becomes upper case, the rest lower case, and the length is kept. |
| `BunnyHelpers.CapitalizedKeys` | lib/warren/adapters/bunny_adapter.rb:14 | The three required keys capitalise to "User", "Pass" and "Vhost". |
| `BunnyHelpers.CheckConnectionDetails` | lib/warren/adapters/bunny_adapter.rb:10-18 | The result is `true` iff `:user`, `:pass` and `:vhost` are all present. Otherwise it is InvalidConnectionDetails naming the first missing key, in the order user, pass, vhost, e.g. "Pass not specified" when only pass is missing. |
| `BunnyHelpers.QueueName` | lib/warren/adapters/bunny_adapter.rb:24-29 | The result is `options[:default_queue]` iff that key is present. Otherwise it is InvalidConnectionDetails "Missing a default queue name." |
| `BunnyHelpers.ResolveQueue` | lib/warren/adapters/bunny_adapter.rb:44 | The symbol `:default` resolves to the configured default queue, or fails as `queue_name` fails. Any other name is used unchanged. |
| `BunnyHelpers.ClientOptions` | lib/warren/adapters/bunny_adapter.rb:149-151 | The keys are exactly the connection options' keys other than `:durable` and `:auto_delete`, with the same values. |
| `BunnyHelpers.QueueOptions` | lib/warren/adapters/bunny_adapter.rb:153-155 | The keys are exactly those connection options' keys among `:durable` and `:auto_delete`, with the same values. |
| `BunnyHelpers.OptionsPartition` | lib/warren/adapters/bunny_adapter.rb:149-155 | Client options and queue options have disjoint keys, and their union is the connection options. `:durable` and `:auto_delete` never reach the client. |
| `BunnyHelpers.TakePayload` | lib/warren/adapters/bunny_adapter.rb:123 | `headers.delete(:payload)` yields the payload (nil when absent). What remains has every other key with its value and no `:payload`. |
| `BunnyHelpers.HandlerArguments` | lib/warren/adapters/bunny_adapter.rb:122-129 | There is no handler call iff the payload is `:queue_empty`. A one-parameter handler gets the unpacked payload. Any other handler also gets the headers without `:payload`, every other key unchanged. |
| `Bunny.BunnyAdapter.Client` | lib/warren/adapters/bunny_adapter.rb:104-106 | An existing client is answered as it is. Otherwise a fresh, unconnected client is built from `client_options` and kept. |
| `Bunny.BunnyAdapter.Reset` | lib/warren/adapters/bunny_adapter.rb:113-116 | An existing client gets exactly one `stop`. A refused stop is swallowed and leaves the status alone. Its start count, QoS count and logs are kept. The handle becomes nil. |
| `Bunny.Handlings` | lib/warren/adapters/bunny_adapter.rb:122-124 | The handler calls a run of inbound messages produces are never more than the messages. |
| `Bunny.HandlingsPerMessage` | lib/warren/adapters/bunny_adapter.rb:122-129 | Over messages none of which is `:queue_empty`, there is exactly one handler call per message, in order. The i-th call gets the arguments `handle_bunny_message` builds from the i-th message. If every message is the sentinel, there are no calls. |
| `Bunny.HandlingsAppend` | lib/warren/adapters/bunny_adapter.rb:80-82 | The handler calls of two runs of messages, one after the other, are the calls of the first run followed by those of the second. |
| `Bunny.BunnyAdapter.DeliveriesOf` | lib/warren/adapters/bunny_adapter.rb:48-53 | A block of plain publishes sends exactly one message per publish. |
| `Bunny.BunnyAdapter.DeliveriesInOrder` | lib/warren/adapters/bunny_adapter.rb:48-53 | The i-th message such a block sends goes to the i-th publish's queue, with its packed payload and its options plus `:key` and `:persistent`. |
| `Bunny.BunnyAdapter.Run` | lib/warren/adapters/bunny_adapter.rb:95 | An empty block answers nil and changes nothing. A block that raises first answers Raised and changes nothing. A block containing a raise anywhere answers an error. A block whose first action is a plain publish sends that message first, under a broker that refuses nothing, whatever follows. A block of plain publishes makes no block calls. Under a broker that refuses nothing, it answers nil and sends its messages in order. `Steady` holds throughout, so a client that ends connected was connected before or was started by the block. |
| `Bunny.BunnyAdapter.Perform` | lib/warren/adapters/bunny_adapter.rb:43-99 | A raise answers Raised and changes nothing. A publish that resolves its queue and is started and accepted by the exchange sends its message first, with or without a callback. A plain publish makes no block calls. Under a broker that refuses nothing, it answers `true` and sends exactly its one message. A nested stay_connected makes its first block call with the flag set, and answers an error if its block contains a raise. A nested subscribe without a handler is NoBlockGiven with nothing changed. Once started, it records the subscription. |
| `Bunny.BunnyAdapter.Publish` | lib/warren/adapters/bunny_adapter.rb:43-55 | A `:default` queue with no default configured fails before any client activity. A refused start fails with no stop. A refused exchange publish fails after the declaration, with no stop after it, and the client stays connected. Otherwise the packed message reaches the exchange. Its options are the caller's plus `:key` (the queue) and `:persistent` (`:durable`). Without a callback no block is called. When the callback is absent or empty: one declaration, one delivery, one start iff the client was not connected, one stop iff the flag is clear. An accepted stop leaves the client disconnected. The result is then `true`, or the callback's value, unless that stop is refused. A callback that raises first gives Raised. |
| `Bunny.BunnyAdapter.Subscribe` | lib/warren/adapters/bunny_adapter.rb:73-85 | No handler gives NoBlockGiven with nothing changed. An unresolvable `:default` queue gives its own error with nothing changed. A refused start subscribes and handles nothing and stops nothing. Once started: the subscription is recorded, there is one start iff the client was not connected, and exactly one stop in all iff the flag was clear. The client then ends disconnected unless the broker refuses stop. A handler with no actions of its own: the QoS is set once, the queue is declared and subscribed once, and the handler is called once per message in order. The answer is `true` unless the final stop is refused. A handler that only publishes, under a broker that refuses nothing, is also called once per message in order, and the answer is `true`. |
| `Bunny.BunnyAdapter.StayConnected` | lib/warren/adapters/bunny_adapter.rb:92-99 | The flag is restored on every exit (`Steady`). The first block call recorded is this block's, with the adapter iff it takes one parameter, and with the flag set. The result is the block's value, and an error if the block contains a raise. The release makes one stop iff the flag was clear and the client is connected after the block; a refused release is a stop error. The client counts as connected after the block only if it was connected before, or the block started it with a start the broker accepts. When the broker refuses stop, that status is the client's final status. From a connected client: no new start. An empty or raising block leaves the connection status as it was, so a scope over an unconnected client stops nothing. A block of plain publishes sends its messages in order. |
| `Bunny.BunnyAdapter.Scope` | lib/warren/adapters/bunny_adapter.rb:92-99 | The save, set, run and ensure-restore of stay_connected, for the adapter's own jobs as well as caller's blocks. It makes one stop iff the restored flag is clear and the client is connected after the body. Connected after the body means connected before, or started during the body with an accepted start; under a refusing stop it is the final status. The result is the body's unless that stop is refused. A caller's block containing a raise gives an error. For subscribe's job: a refused start leaves the client unconnected. Otherwise the subscription is recorded. A handler with no actions is consumed quietly. A handler that only publishes, under a broker that refuses nothing, is called once per message. |
| `Bunny.BunnyAdapter.Restore` | lib/warren/adapters/bunny_adapter.rb:96-98 | The flag becomes the saved value. With the flag clear, a connected client gets exactly one `stop` and nothing else changes. The restore fails iff that stop is refused. With the flag set, nothing is touched. |
| `Bunny.BunnyAdapter.DoConnect` | lib/warren/adapters/bunny_adapter.rb:134-141 | The body runs iff the start succeeds or is not needed; a refused start propagates. An exception from the body propagates with no stop after it. After a body that completes, there is one stop iff the flag is clear. An accepted stop leaves the client disconnected. The answer is `true` unless that stop is refused. Publish's body records the declaration and, unless the exchange refuses it, the delivery. Subscribe's body records the subscription and, for a handler that cannot fail, one handler call per message. |
| `Bunny.BunnyAdapter.Open` | lib/warren/adapters/bunny_adapter.rb:136 | `start` is called iff the client is not connected. The call succeeds iff the client was already connected or the broker accepts it. Nothing else changes. |
| `Bunny.BunnyAdapter.StopUnlessStaying` | lib/warren/adapters/bunny_adapter.rb:140 | Exactly one `stop` iff the flag is clear; an accepted stop leaves the client disconnected, a refused one leaves the status as it was. With the flag set, the client is untouched. |
| `Bunny.BunnyAdapter.Callback` | lib/warren/adapters/bunny_adapter.rb:142 | `callback.call` answers the callback's value unless it raises, and a callback containing a raise gives an error. An empty callback answers its value and changes nothing. A callback that raises first answers Raised and changes nothing. |
| `Bunny.BunnyAdapter.Exec` | lib/warren/adapters/bunny_adapter.rb:48-83 | Publish's block declares the queue with the queue options, then sends exactly one delivery unless the exchange refuses it. It makes no start or stop. The stay_connected block is recorded with the flag it ran under, and a block containing a raise gives an error. Subscribe's block records its subscription. A handler that cannot fail gets one call per message. |
| `Bunny.BunnyAdapter.ConsumeMessages` | lib/warren/adapters/bunny_adapter.rb:79-82 | Sets the QoS, declares the queue and subscribes to it, then delivers the inbound messages. For a handler that cannot fail (no actions, or only plain publishes to a broker that refuses nothing), the answer is nil and the calls are exactly one handler call per message that is not the sentinel, in order (`Handlings`). A handler with no actions also gives exactly one QoS, one declaration and one subscription, and no start or stop. |
| `Bunny.BunnyAdapter.Deliver` | lib/warren/adapters/bunny_adapter.rb:80-82 | For a handler that cannot fail, each inbound message, in order, goes to `handle_bunny_message`: the answer is nil and the calls grow by exactly `Handlings(inbound)`. A handler with no actions touches nothing else. |
| `Bunny.BunnyAdapter.HandleMessage` | lib/warren/adapters/bunny_adapter.rb:122-129 | `:queue_empty` changes nothing. Any other message records exactly the handler call `HandlerArguments` describes. The answer is the handler's value when it succeeds, and an error when the handler contains a raise. A handler that cannot fail succeeds, records nothing else, and still cannot fail after it. An empty handler answers its value; one that raises first answers Raised. |
| `BunnyScenarios.NestedScopesStopOnce` | spec/warren/adapters/bunny_adapter_spec.rb:143-150 | Three nested scopes over a connected client stop it exactly once. |
| `BunnyScenarios.PublishesInScopeStopOnce` | spec/warren/adapters/bunny_adapter_spec.rb:129-135 | Three publishes in one scope over a connected client, under a broker that refuses nothing, answer nil and send three messages in order, with one stop and no start. |
| `BunnyScenarios.SubscribeThenPublishStopsOnce` | spec/warren/adapters/bunny_adapter_spec.rb:67-76 | A handler that publishes, over any inbound messages, leaves the connected client stopped exactly once. Under a broker that refuses nothing, the handler is called once per message and subscribe answers `true`. |
| `BunnyScenarios.SubscribeHandsEveryMessage` | lib/warren/adapters/bunny_adapter.rb:77-85 | A handler with no actions of its own, over messages with no sentinel, is called once per message in order with the arguments `handle_bunny_message` builds, and subscribe answers `true`. |
| `BunnyScenarios.IdleScopeStopsNothing` | lib/warren/adapters/bunny_adapter.rb:98 | A scope over an unconnected or absent client answers the block's value and stops nothing. |
| `BunnyScenarios.RefusedStartScopeStopsNothing` | lib/warren/adapters/bunny_adapter.rb:92-99 | A publishing scope over an unconnected client whose broker refuses start stops nothing and leaves the client unconnected. |
| `BunnyScenarios.RefusedPublishSkipsStop` | lib/warren/adapters/bunny_adapter.rb:134-140 | A publish the exchange refuses fails with no stop after it, and the client stays connected. |
| `BunnyScenarios.SubscribeWithoutBlock` | lib/warren/adapters/bunny_adapter.rb:74 | A subscribe without a handler is NoBlockGiven and changes nothing. |
| `BunnyScenarios.ClientIsMemoised` | spec/warren/adapters/bunny_adapter_spec.rb:93-96 | Consecutive `client` calls answer the same client. |
| `BunnyScenarios.ResetForcesNewClient` | spec/warren/adapters/bunny_adapter_spec.rb:105-116 | `reset` stops the old client once, and the next `client` is a fresh, different, unconnected one. |
| `BunnyScenarios.TwoArgumentHandlerGetsHeaders` | spec/warren/adapters/bunny_adapter_spec.rb:54-65 | A two-parameter handler gets "my message" and `{:some => :header}`. |
| `WarrenQueue.MissingMethod` | lib/warren/queue.rb:67 | The error is InvalidAdapter whose message is the operation name followed by " method missing". |
| `WarrenQueue.Queue.constructor` | lib/warren/queue.rb:3-5 | Connection, adapter and logger all start out nil. |
| `WarrenQueue.Queue.SetConnection` | lib/warren/queue.rb:31-33 | A Connection is stored as it is. Other details are passed to `Connection.new`, whose result is stored. A failure leaves the old connection. |
| `WarrenQueue.Queue.GetConnection` | lib/warren/queue.rb:38-40 | A stored connection is answered unchanged. Otherwise one is built once and kept. |
| `WarrenQueue.Queue.Inherited` | lib/warren/queue.rb:45-47 | Subclassing makes the subclass the adapter, and it responds to all five operations. |
| `WarrenQueue.Queue.SetAdapter` | lib/warren/queue.rb:52-54 | The given adapter, nil included, replaces the current one. |
| `WarrenQueue.Queue.GetAdapter` | lib/warren/queue.rb:59-61 | The result is NoAdapterSet iff no adapter is set; otherwise it is the adapter. |
| `WarrenQueue.Queue.Forward` | lib/warren/queue.rb:66-101 | The result is InvalidAdapter "<op> method missing" iff `@@adapter` does not respond to the operation, so a nil adapter gives InvalidAdapter too. Otherwise it is exactly the adapter's answer to the unchanged arguments and block. Facade state is untouched. |
| `WarrenQueue.Queue.Publish` | lib/warren/queue.rb:66-69 | "publish method missing" iff the adapter does not respond to publish; otherwise the adapter's answer. |
| `WarrenQueue.Queue.Subscribe` | lib/warren/queue.rb:74-77 | "subscribe method missing" iff the adapter does not respond to subscribe; otherwise the adapter's answer. |
| `WarrenQueue.Queue.StayConnected` | lib/warren/queue.rb:82-85 | "stay_connected method missing" iff the adapter does not respond to stay_connected; otherwise the adapter's answer. |
| `WarrenQueue.Queue.Client` | lib/warren/queue.rb:90-93 | "client method missing" iff the adapter does not respond to client; otherwise the adapter's answer. |
| `WarrenQueue.Queue.Reset` | lib/warren/queue.rb:98-101 | "reset method missing" iff the adapter does not respond to reset; otherwise the adapter's answer. |
| `WarrenQueue.Queue.GetLogger` | lib/warren/queue.rb:103-108 | A set logger is answered unchanged. Otherwise a null sink is made once and kept. |
| `WarrenQueue.Queue.SetLogger` | lib/warren/queue.rb:110-112 | The given logger, nil included, replaces the current one. |
| `WarrenQueue.LastAdapterWins` | lib/warren/queue.rb:45-54 | After `adapter=` and then a subclassing, the adapter is the subclass. |
| `WarrenQueue.NilAdapterIsInvalid` | lib/warren/queue.rb:59-69 | With no adapter, publish reports InvalidAdapter while the `adapter` accessor reports NoAdapterSet. |
| `WarrenQueue.ReplacedLoggerIsUsed` | lib/warren/queue.rb:103-112 | After `logger=`, `logger` answers the replacement. |
| `WarrenQueue.ConnectionIsMemoised` | lib/warren/queue.rb:38-40 | Two `connection` calls answer the same connection once one was built. |

## Left out

- The broker transport (`Bunny.new`, `start`, `stop`, `qos`, `queue`, `exchange`, `publish`, `subscribe`) is a foreign network library. It is the class `BunnyClient`, which records calls. A `Broker` value decides whether start, stop or an exchange publish is refused. Failures of `qos`, queue declaration and subscription are not modelled.
- `Warren::MessageFilter.pack(...).to_s` and `unpack` are not part of this model. They are the function-valued fields `pack` and `unpack` of the adapter, and no round-trip law is assumed.
- `Warren::Connection` is not part of this model beyond its options. `Connection.new` is the facade's constructor parameters `build` and `buildDefault`, so the validation it delegates to `check_connection_details` is not connected to `CheckConnectionDetails`.
- `self.connection` inside the adapter is the adapter's constant `connection`. The facade's `connection=` does not reach an adapter that already exists.
- The subscription loop is blocking and potentially endless. It runs over a finite sequence of inbound header hashes, after which subscribe returns `true`.
- `headers.delete(:payload)` mutates the delivered hash in place. The model computes the reduced hash as a value and hands it to the handler, the only reader of that hash.
- `Hash[*...flatten]` in `queue_options` would also flatten array values. The model keeps the values as they are; the only values expected there are booleans.
- Ruby reflection (`respond_to?`, `blk.arity`, `methods(false)`) is explicit data: `AdapterClass.defines`, `subclassOfQueue` and `Block.unary`.
- A block's return value is a fixed `Value`, not computed from the block's arguments. A handler's return value is discarded, as the loop discards it.
- Logger output and the `Logger.new(nil)` sink are I/O. A logger is an opaque value.
- Thread-safety of the class-level flag and handle is a concurrency matter and is not modelled.
- The dummy adapter only logs, returns nil or calls its block. It is not part of this model.
- A subclass of `Warren::Queue` that does not define an operation still passes the facade's `respond_to?` check, and the real call then re-enters the facade. The model stops at the check: `Forward` answers the adapter's result without modelling that re-entry.
- `Bunny.BunnyAdapter.Publish`: the exact counts of starts, stops and messages are stated only when the callback is absent or has no actions of its own. A callback with actions runs after the stop and may connect and publish again.
- `Bunny.BunnyAdapter.Subscribe`: the per-message handler calls are stated for a handler with no actions of its own, or one that only publishes to a broker that refuses nothing. For a handler that raises, only the single message is stated, by `HandleMessage`, and not the whole subscription. Other handlers are bound only by `Steady`.
- `Bunny.BunnyAdapter.Deliver`: for a handler that can fail (one with actions other than plain publishes, or under a broker that refuses something), only `Steady` and the nil answer on success are stated. Which messages reached the handler is not.
- `Bunny.BunnyAdapter.ConsumeMessages`: the single QoS call and declaration are stated exactly only for a handler with no actions of its own. A publishing handler declares queues itself, and the separate logs cannot tell its declarations from the consumer's.
- `Bunny.BunnyAdapter.Run`: a block with actions other than plain publishes is bound only by `Steady`, the first-publish clause and, when it contains a raise, the error answer. That all its actions run, and run before a later raise, is not stated.
- `Bunny.BunnyAdapter.Perform`: a nested stay_connected or subscribe is stated through its first block call, its raise and its subscription only. A publish with a callback is stated through its first message only. The rest of their effect is bound by `Steady`.
- `Bunny.BunnyAdapter.Callback`: a callback with actions is bound only by `Steady`, and, when it contains a raise, the error answer. That its actions run, including those before a later raise, is not stated.
- `Bunny.BunnyAdapter.StayConnected`: that the block's actions run exactly once is not stated. Whether the client is connected after the block is stated only as bounded by its start history, or exactly when the broker refuses stop. The call log shows only that the block was called first, with the flag set.
- `Bunny.BunnyAdapter.Exec`: that the stay_connected block's actions run exactly once is not stated. The call log shows only that the block was called first.
- `Bunny.BunnyAdapter.HandleMessage`: a handler body with no raise that can still fail (actions other than plain publishes, or a broker that refuses something) is bound only by `Steady`. That it runs is not stated.
- The broker client keeps one log per kind of call (QoS, declarations, publishes, subscriptions). The order between calls of different kinds, such as a declaration before its publish, is not modelled.
- The loop that hands each message to the handler lives in the broker library. `Deliver` models it as recursion over the finite inbound sequence.
- The facade's forwarding methods take the adapter's operation as a function parameter. They are never composed with `Bunny.BunnyAdapter`, so adapter effects reached through `Warren::Queue` are not modelled; the facade contracts state only the check and the forwarding.
