/** The read-only helpers of the Bunny adapter: required-field validation,
    default queue resolution, the split of the connection options and the
    arguments a subscription handler receives. */
module BunnyHelpers {
  import opened Values

  /** The connection options the adapter requires, in the order it checks them. */
  const RequiredKeys: seq<string> := ["user", "pass", "vhost"]

  /** The options that configure queue declaration rather than the client. */
  const QueueKeys: set<string> := {"durable", "auto_delete"}

  /** The queue name that stands for the configured default queue. */
  const DefaultQueue: Value := Sym("default")

  /** The payload the broker client delivers when the queue is empty. */
  const QueueEmpty: Value := Sym("queue_empty")

  function UpperChar(c: char): char
  {
    if 'a' <= c <= 'z' then (c as int - 32) as char else c
  }

  function LowerChar(c: char): char
  {
    if 'A' <= c <= 'Z' then (c as int + 32) as char else c
  }

  /** Ruby's String#capitalize on ASCII text: first letter upper case, the rest lower case. */
  function Capitalize(s: string): (r: string)
    ensures |r| == |s|
    ensures s != [] ==> r[0] == UpperChar(s[0])
    ensures forall i :: 0 < i < |s| ==> r[i] == LowerChar(s[i])
  {
    if s == [] then [] else [UpperChar(s[0])] + seq(|s| - 1, i requires 0 <= i < |s| - 1 => LowerChar(s[i + 1]))
  }

  /** The messages name the required keys capitalised. */
  lemma CapitalizedKeys()
    ensures Capitalize("user") == "User"
    ensures Capitalize("pass") == "Pass"
    ensures Capitalize("vhost") == "Vhost"
  {
    assert Capitalize("user") == "User";
    assert Capitalize("pass") == "Pass";
    assert Capitalize("vhost") == "Vhost";
  }

  /** The position of the first of `keys` that `opts` lacks, or |keys| when none is missing. */
  function FirstMissing(keys: seq<string>, opts: Options): (i: nat)
    ensures i <= |keys|
    ensures forall j :: 0 <= j < i ==> keys[j] in opts
    ensures i < |keys| ==> keys[i] !in opts
  {
    if keys == [] || keys[0] !in opts then 0 else 1 + FirstMissing(keys[1..], opts)
  }

  /** check_connection_details: true when user, pass and vhost are all given; otherwise
      InvalidConnectionDetails naming the first one missing. */
  function CheckConnectionDetails(opts: Options): (r: Result<bool>)
    ensures r == Ok(true) <==> "user" in opts && "pass" in opts && "vhost" in opts
    ensures r.Ok? ==> r.value
    ensures "user" !in opts ==> r == Err(InvalidConnectionDetails("User not specified"))
    ensures "user" in opts && "pass" !in opts ==> r == Err(InvalidConnectionDetails("Pass not specified"))
    ensures "user" in opts && "pass" in opts && "vhost" !in opts
            ==> r == Err(InvalidConnectionDetails("Vhost not specified"))
  {
    var i := FirstMissing(RequiredKeys, opts);
    CapitalizedKeys();
    assert RequiredKeys[0] == "user" && RequiredKeys[1] == "pass" && RequiredKeys[2] == "vhost";
    assert 0 < i ==> "user" in opts;
    assert 1 < i ==> "pass" in opts;
    assert 2 < i ==> "vhost" in opts;
    if i == |RequiredKeys| then Ok(true)
    else
      var missing := Capitalize(RequiredKeys[i]) + " not specified";
      assert i == 0 ==> missing == "User not specified";
      assert i == 1 ==> missing == "Pass not specified";
      assert i == 2 ==> missing == "Vhost not specified";
      Err(InvalidConnectionDetails(missing))
  }

  /** queue_name: the configured default queue, or InvalidConnectionDetails when none is configured. */
  function QueueName(opts: Options): (r: Result<Value>)
    ensures r.Ok? <==> "default_queue" in opts
    ensures r.Ok? ==> r.value == opts["default_queue"]
    ensures r.Err? ==> r.error == InvalidConnectionDetails("Missing a default queue name.")
  {
    if "default_queue" !in opts then Err(InvalidConnectionDetails("Missing a default queue name."))
    else Ok(opts["default_queue"])
  }

  /** The queue a publish or subscribe addresses: `:default` is replaced by the
      configured default queue, every other name is used as given. */
  function ResolveQueue(opts: Options, queue: Value): (r: Result<Value>)
    ensures queue != DefaultQueue ==> r == Ok(queue)
    ensures queue == DefaultQueue ==> r == QueueName(opts)
  {
    if queue == DefaultQueue then QueueName(opts) else Ok(queue)
  }

  /** client_options: the connection options without the queue-declaration keys. */
  function ClientOptions(opts: Options): (r: Options)
    ensures r.Keys == opts.Keys - QueueKeys
    ensures forall k :: k in r ==> r[k] == opts[k]
  {
    map k | k in opts && k !in QueueKeys :: opts[k]
  }

  /** queue_options: only the queue-declaration keys of the connection options. */
  function QueueOptions(opts: Options): (r: Options)
    ensures r.Keys == opts.Keys * QueueKeys
    ensures forall k :: k in r ==> r[k] == opts[k]
  {
    map k | k in opts && k in QueueKeys :: opts[k]
  }

  /** The two option sets partition the connection options: every key goes to
      exactly one of them, with its value, and the queue keys never reach the client. */
  lemma OptionsPartition(opts: Options)
    ensures ClientOptions(opts).Keys !! QueueOptions(opts).Keys
    ensures ClientOptions(opts) + QueueOptions(opts) == opts
    ensures "durable" !in ClientOptions(opts) && "auto_delete" !in ClientOptions(opts)
    ensures QueueOptions(opts).Keys <= {"durable", "auto_delete"}
  {
    var union := ClientOptions(opts) + QueueOptions(opts);
    assert union.Keys == opts.Keys;
    forall k | k in opts ensures union[k] == opts[k] { }
  }

  /** headers.delete(:payload): the deleted value (nil when absent) and what remains. */
  function TakePayload(headers: Headers): (r: (Value, Headers))
    ensures r.0 == Lookup(headers, "payload")
    ensures "payload" !in r.1
    ensures forall k :: k in headers && k != "payload" ==> k in r.1 && r.1[k] == headers[k]
    ensures r.1.Keys <= headers.Keys
  {
    (Lookup(headers, "payload"), headers - {"payload"})
  }

  /** The arguments a subscription handler is called with. */
  datatype HandlerCall =
    | WithPayload(payload: Value)
    | WithPayloadAndHeaders(payload: Value, headers: Headers)

  /** handle_bunny_message, seen from the handler: no call for the empty-queue
      sentinel; otherwise the unpacked payload, and for a handler that does not
      take exactly one argument also the delivery headers without the payload. */
  function HandlerArguments(headers: Headers, unpack: Value -> Value, unary: bool): (c: Option<HandlerCall>)
    ensures c.None? <==> Lookup(headers, "payload") == QueueEmpty
    ensures c.Some? && unary ==> c.value == WithPayload(unpack(Lookup(headers, "payload")))
    ensures c.Some? && !unary ==> c.value.WithPayloadAndHeaders?
    ensures c.Some? && !unary ==> c.value.payload == unpack(Lookup(headers, "payload"))
    ensures c.Some? && !unary ==> "payload" !in c.value.headers
    ensures c.Some? && !unary ==> forall k :: k in headers && k != "payload"
                                    ==> k in c.value.headers && c.value.headers[k] == headers[k]
    ensures c.Some? && !unary ==> c.value.headers.Keys <= headers.Keys
  {
    var (payload, rest) := TakePayload(headers);
    if payload == QueueEmpty then None
    else if unary then Some(WithPayload(unpack(payload)))
    else Some(WithPayloadAndHeaders(unpack(payload), rest))
  }
}
