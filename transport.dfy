/** The socket.io client that the OnlyCat API client drives, seen only through
    what the API client asks of it: a connected flag, the log of requests it
    has been given, and the answers of the remote gateway behind it. The
    handshake, reconnection, framing and call correlation of the real library
    are not modelled; the gateway's answers are a parameter. */
module Transport {

  datatype Option<T> = None | Some(value: T)

  /** Event payloads carry no schema in the client: a JSON-like value. */
  datatype Value =
    | Null
    | Bool(b: bool)
    | Int(i: int)
    | Str(s: string)
    | Array(items: seq<Value>)
    | Object(fields: map<string, Value>)

  /** What the transport raises. The client neither classifies nor catches it. */
  datatype TransportError = NotConnected | Failed(reason: string)

  datatype Result<T> = Ok(value: T) | Err(error: TransportError)

  /** Reconnection and TLS settings of a socket created by the client itself. */
  datatype Options = Options(
    reconnection: bool,
    reconnectionAttempts: nat,
    reconnectionDelay: nat,
    reconnectionDelayMax: nat,
    sslVerify: bool)

  /** The remote end: whether it accepts a handshake carrying a given auth
      object, and how it answers a call. */
  datatype Gateway = Gateway(
    handshake: map<string, string> -> Result<()>,
    respond: (string, Value) -> Result<Option<Value>>)

  /** One request made of the transport, in the order the client makes them. */
  datatype Request =
    | On(event: string)
    | Connect(url: string, transports: seq<string>, namespaces: string,
              headers: map<string, string>, auth: map<string, string>)
    | Disconnect
    | Shutdown
    | Call(event: string, data: Value)
    | Wait

  /** The answer a call gets: the gateway's, or NotConnected when there is no session. */
  function CallOutcome(connected: bool, gateway: Gateway, event: string, data: Value): Result<Option<Value>>
  {
    if connected then gateway.respond(event, data) else Err(NotConnected)
  }

  /** Number of handshake attempts in a request log. */
  function ConnectAttempts(log: seq<Request>): (n: nat)
    ensures n <= |log|
  {
    if log == [] then 0
    else ConnectAttempts(log[..|log| - 1]) + (if log[|log| - 1].Connect? then 1 else 0)
  }

  /** Handshake attempts of a log are those of its two halves. */
  lemma {:induction false} ConnectAttemptsAppend(a: seq<Request>, b: seq<Request>)
    ensures ConnectAttempts(a + b) == ConnectAttempts(a) + ConnectAttempts(b)
    decreases |b|
  {
    if b != [] {
      var b' := b[..|b| - 1];
      assert (a + b)[..|a + b| - 1] == a + b';
      ConnectAttemptsAppend(a, b');
    } else {
      assert a + b == a;
    }
  }

  class Socket {
    const options: Options
    const gateway: Gateway
    var connected: bool
    var log: seq<Request>

    constructor (options: Options, gateway: Gateway)
      ensures this.options == options && this.gateway == gateway
      ensures !connected && log == []
    {
      this.options := options;
      this.gateway := gateway;
      connected := false;
      log := [];
    }

    /** Subscribe a handler for an event ("*" for every event). */
    method On(event: string)
      modifies this
      ensures log == old(log) + [Request.On(event)]
      ensures connected == old(connected)
    {
      log := log + [Request.On(event)];
    }

    method Connect(url: string, transports: seq<string>, namespaces: string,
                   headers: map<string, string>, auth: map<string, string>)
      returns (r: Result<()>)
      modifies this
      ensures log == old(log) + [Request.Connect(url, transports, namespaces, headers, auth)]
      ensures r == gateway.handshake(auth)
      ensures connected <==> r.Ok?
    {
      log := log + [Request.Connect(url, transports, namespaces, headers, auth)];
      r := gateway.handshake(auth);
      connected := r.Ok?;
    }

    method Disconnect()
      modifies this
      ensures log == old(log) + [Request.Disconnect]
      ensures !connected
    {
      log := log + [Request.Disconnect];
      connected := false;
    }

    method Shutdown()
      modifies this
      ensures log == old(log) + [Request.Shutdown]
      ensures connected == old(connected)
    {
      log := log + [Request.Shutdown];
    }

    method Call(event: string, data: Value) returns (r: Result<Option<Value>>)
      modifies this
      ensures log == old(log) + [Request.Call(event, data)]
      ensures connected == old(connected)
      ensures r == CallOutcome(old(connected), gateway, event, data)
    {
      log := log + [Request.Call(event, data)];
      r := CallOutcome(connected, gateway, event, data);
    }

    /** Block until the session is closed: when it returns, the socket is
        disconnected. The blocking itself is not modelled. */
    method Wait()
      modifies this
      ensures log == old(log) + [Request.Wait]
      ensures !connected
    {
      log := log + [Request.Wait];
      connected := false;
    }
  }
}
