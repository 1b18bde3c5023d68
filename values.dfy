/** Ruby values shared by the Queue facade, the Bunny adapter and the broker client. */
module Values {

  datatype Option<T> = None | Some(value: T)

  /** The Ruby values the core handles: option values, queue names and payloads. */
  datatype Value = Nil | Bool(b: bool) | Int(i: int) | Str(s: string) | Sym(name: string)

  /** A Ruby hash keyed by symbols; each key is written as its symbol's name. */
  type Options = map<string, Value>

  /** The hash of delivery data the broker client hands to the subscription loop. */
  type Headers = map<string, Value>

  /** `h[key]` on a Ruby hash: nil when the key is absent. */
  function Lookup(h: map<string, Value>, key: string): Value
  {
    if key in h then h[key] else Nil
  }

  /** The exceptions the core raises or lets through. */
  datatype Error =
    | InvalidConnectionDetails(message: string)
    | NoAdapterSet
    | InvalidAdapter(message: string)
    | NoBlockGiven
    | TransportError(operation: string)  // raised by the broker client
    | Raised                             // raised by a block the caller passed in

  datatype Result<T> = Ok(value: T) | Err(error: Error)

  /** Warren::Connection, of which the core reads only the options. */
  datatype Connection = Connection(options: Options)
}
