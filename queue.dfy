/** Warren::Queue, the process-wide facade: it holds the active connection,
    adapter and logger, and forwards publish, subscribe, stay_connected, client
    and reset to the adapter after checking that the adapter answers to them. */
module WarrenQueue {
  import opened Values

  /** The operations the facade forwards. */
  datatype Op = PublishOp | SubscribeOp | StayConnectedOp | ClientOp | ResetOp

  function OpName(op: Op): string
  {
    match op
    case PublishOp => "publish"
    case SubscribeOp => "subscribe"
    case StayConnectedOp => "stay_connected"
    case ClientOp => "client"
    case ResetOp => "reset"
  }

  /** An adapter class: its name, the operations it defines itself, and whether it
      is a subclass of Warren::Queue, whose five class methods it then inherits. */
  datatype AdapterClass = AdapterClass(name: string, defines: set<Op>, subclassOfQueue: bool)

  /** `@@adapter.respond_to?(op)`: nil answers to none of the operations. */
  predicate RespondsTo(adapter: Option<AdapterClass>, op: Op)
  {
    adapter.Some? && (op in adapter.value.defines || adapter.value.subclassOfQueue)
  }

  /** The error the facade raises for an operation the adapter lacks. */
  function MissingMethod(op: Op): (e: Error)
    ensures e.InvalidAdapter? && e.message == OpName(op) + " method missing"
  {
    InvalidAdapter(OpName(op) + " method missing")
  }

  /** The value given to `connection=`: a Warren::Connection, or the details to build one from. */
  datatype ConnectionArgument =
    | AConnection(connection: Connection)
    | Details(details: map<string, Options>)

  /** A logger: the null sink Logger.new(nil), or one a caller installed. */
  datatype Logger = NullSink | CustomLogger(name: string)

  class Queue {
    const build: map<string, Options> -> Result<Connection>  // Warren::Connection.new(details)
    const buildDefault: Result<Connection>                   // Warren::Connection.new
    var connection: Option<Connection>  // @@connection
    var adapter: Option<AdapterClass>   // @@adapter
    var logger: Option<Logger>          // @@logger

    /** The class variables start out nil. */
    constructor (build: map<string, Options> -> Result<Connection>, buildDefault: Result<Connection>)
      ensures this.build == build && this.buildDefault == buildDefault
      ensures connection == None && adapter == None && logger == None
    {
      this.build := build;
      this.buildDefault := buildDefault;
      connection, adapter, logger := None, None, None;
    }

    /** connection=: keep a Connection as it is, build one from anything else. */
    method SetConnection(arg: ConnectionArgument) returns (r: Result<Connection>)
      modifies this`connection
      ensures arg.AConnection? ==> r == Ok(arg.connection)
      ensures arg.Details? ==> r == build(arg.details)
      ensures r.Ok? ==> connection == Some(r.value)
      ensures r.Err? ==> connection == old(connection)
    {
      if arg.AConnection? {
        r := Ok(arg.connection);
      } else {
        r := build(arg.details);
      }
      if r.Ok? {
        connection := Some(r.value);
      }
    }

    /** connection: the current connection, built once on first use. */
    method GetConnection() returns (r: Result<Connection>)
      modifies this`connection
      ensures old(connection).Some? ==> r == Ok(old(connection).value) && connection == old(connection)
      ensures old(connection).None? ==> r == buildDefault
      ensures old(connection).None? ==> connection == (if r.Ok? then Some(r.value) else None)
    {
      if connection.None? {
        r := buildDefault;
        if r.Ok? {
          connection := Some(r.value);
        }
      } else {
        r := Ok(connection.value);
      }
    }

    /** inherited: subclassing Warren::Queue makes the subclass the adapter. */
    method Inherited(name: string, defines: set<Op>)
      modifies this`adapter
      ensures adapter == Some(AdapterClass(name, defines, true))
      ensures forall op :: RespondsTo(adapter, op)
    {
      adapter := Some(AdapterClass(name, defines, true));
    }

    /** adapter=: install an adapter (or nil) by hand. */
    method SetAdapter(klass: Option<AdapterClass>)
      modifies this`adapter
      ensures adapter == klass
    {
      adapter := klass;
    }

    /** adapter: the current adapter, or NoAdapterSet. */
    method GetAdapter() returns (r: Result<AdapterClass>)
      ensures adapter.None? <==> r == Err(NoAdapterSet)
      ensures adapter.Some? ==> r == Ok(adapter.value)
    {
      if adapter.None? {
        r := Err(NoAdapterSet);
      } else {
        r := Ok(adapter.value);
      }
    }

    /** The shape of the five forwarding methods: check `@@adapter` answers to the
        operation, then hand the arguments and the block unchanged to `self.adapter`
        and answer exactly what it answers. */
    method Forward<A, B, R>(op: Op, args: A, blk: B, call: (AdapterClass, A, B) -> R) returns (r: Result<R>)
      ensures !RespondsTo(adapter, op) <==> r == Err(MissingMethod(op))
      ensures RespondsTo(adapter, op) ==> r == Ok(call(adapter.value, args, blk))
      ensures adapter.None? ==> r == Err(MissingMethod(op))
    {
      if !RespondsTo(adapter, op) {
        return Err(MissingMethod(op));
      }
      var current := GetAdapter();
      r := Ok(call(current.value, args, blk));
    }

    method Publish<A, B, R>(args: A, blk: B, publish: (AdapterClass, A, B) -> R) returns (r: Result<R>)
      ensures !RespondsTo(adapter, PublishOp) <==> r == Err(InvalidAdapter("publish method missing"))
      ensures RespondsTo(adapter, PublishOp) ==> r == Ok(publish(adapter.value, args, blk))
    {
      r := Forward(PublishOp, args, blk, publish);
    }

    method Subscribe<A, B, R>(args: A, blk: B, subscribe: (AdapterClass, A, B) -> R) returns (r: Result<R>)
      ensures !RespondsTo(adapter, SubscribeOp) <==> r == Err(InvalidAdapter("subscribe method missing"))
      ensures RespondsTo(adapter, SubscribeOp) ==> r == Ok(subscribe(adapter.value, args, blk))
    {
      r := Forward(SubscribeOp, args, blk, subscribe);
    }

    method StayConnected<A, B, R>(args: A, blk: B, stayConnected: (AdapterClass, A, B) -> R) returns (r: Result<R>)
      ensures !RespondsTo(adapter, StayConnectedOp) <==> r == Err(InvalidAdapter("stay_connected method missing"))
      ensures RespondsTo(adapter, StayConnectedOp) ==> r == Ok(stayConnected(adapter.value, args, blk))
    {
      r := Forward(StayConnectedOp, args, blk, stayConnected);
    }

    method Client<A, B, R>(args: A, blk: B, client: (AdapterClass, A, B) -> R) returns (r: Result<R>)
      ensures !RespondsTo(adapter, ClientOp) <==> r == Err(InvalidAdapter("client method missing"))
      ensures RespondsTo(adapter, ClientOp) ==> r == Ok(client(adapter.value, args, blk))
    {
      r := Forward(ClientOp, args, blk, client);
    }

    method Reset<A, B, R>(args: A, blk: B, reset: (AdapterClass, A, B) -> R) returns (r: Result<R>)
      ensures !RespondsTo(adapter, ResetOp) <==> r == Err(InvalidAdapter("reset method missing"))
      ensures RespondsTo(adapter, ResetOp) ==> r == Ok(reset(adapter.value, args, blk))
    {
      r := Forward(ResetOp, args, blk, reset);
    }

    /** logger: the current logger, a null sink made once on first use. */
    method GetLogger() returns (l: Logger)
      modifies this`logger
      ensures old(logger).Some? ==> l == old(logger).value && logger == old(logger)
      ensures old(logger).None? ==> l == NullSink && logger == Some(NullSink)
    {
      if logger.None? {
        logger := Some(NullSink);
      }
      l := logger.value;
    }

    /** logger=: replace the logger (nil makes the next logger call build a null sink). */
    method SetLogger(l: Option<Logger>)
      modifies this`logger
      ensures logger == l
    {
      logger := l;
    }
  }

  /** The last of several adapter assignments, by hand or by subclassing, is the one in force. */
  method LastAdapterWins(q: Queue, first: AdapterClass, name: string, defines: set<Op>) returns (r: Result<AdapterClass>)
    modifies q`adapter
    ensures r == Ok(AdapterClass(name, defines, true))
  {
    q.SetAdapter(Some(first));
    q.Inherited(name, defines);
    r := q.GetAdapter();
  }

  /** A forwarding call with no adapter set reports the missing method, not NoAdapterSet,
      although the adapter accessor itself reports NoAdapterSet. */
  method NilAdapterIsInvalid<A, B, R>(q: Queue, args: A, blk: B, publish: (AdapterClass, A, B) -> R)
    returns (forwarded: Result<R>, accessed: Result<AdapterClass>)
    requires q.adapter.None?
    ensures forwarded == Err(InvalidAdapter("publish method missing"))
    ensures accessed == Err(NoAdapterSet)
  {
    forwarded := q.Publish(args, blk, publish);
    accessed := q.GetAdapter();
  }

  /** After logger= the logger accessor answers the replacement. */
  method ReplacedLoggerIsUsed(q: Queue, l: Logger) returns (current: Logger)
    modifies q`logger
    ensures current == l
  {
    q.SetLogger(Some(l));
    current := q.GetLogger();
  }

  /** The connection accessor builds the connection once and answers it again after. */
  method ConnectionIsMemoised(q: Queue) returns (first: Result<Connection>, second: Result<Connection>)
    modifies q`connection
    ensures first.Ok? ==> second == first
  {
    first := q.GetConnection();
    second := q.GetConnection();
  }
}
