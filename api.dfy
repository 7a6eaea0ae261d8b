/** The OnlyCat API client: a listener registry and event dispatcher on top of
    a socket.io connection to the OnlyCat gateway, with guarded connect,
    disconnect, wait and request/response calls. */
module OnlyCatApi {
  import opened Transport
  import opened Registry
  import opened Dispatcher

  const OnlyCatUrl: string := "https://gateway.onlycat.com"

  /** Event name of the transport's catch-all subscription. */
  const Wildcard: string := "*"

  /** Headers sent with the handshake. */
  const Headers: map<string, string> := map["platform" := "home-assistant", "device" := "onlycat-hass"]

  /** Settings of the socket the client creates when none is given:
      reconnect forever (0 attempts means no limit), every 10 seconds, verify TLS. */
  const DefaultOptions: Options := Options(true, 0, 10, 10, true)

  /** The one handshake request `connect` makes. */
  function ConnectRequest(token: string): Request
  {
    Request.Connect(OnlyCatUrl, ["websocket"], "/", Headers, map["token" := token])
  }

  class OnlyCatApiClient {
    const token: string
    const socket: Socket
    /** How the callbacks registered with this client behave. */
    const behaviour: Behaviour
    var listeners: Listeners
    /** Every callback call `handle_event` has made, in order. */
    ghost var invocations: seq<Invocation>

    /** The callbacks for `e`, in registration order (empty when none). */
    function ListenersFor(e: EventName): seq<HandlerId>
      reads this
    {
      Lookup(listeners, e)
    }

    /** Uses `socket` when one is given, and otherwise creates its own, talking
        to `gateway` with `DefaultOptions`. Either way the socket gets a
        catch-all subscription for "*" (the events the transport routes to its
        catch-all reach `HandleEvent`) and `on_connected` listens to "connect". */
    constructor (token: string, socket: Socket?, gateway: Gateway, behaviour: Behaviour)
      modifies socket
      ensures this.token == token && this.behaviour == behaviour
      ensures listeners == InitialListeners()
      ensures forall e :: ListenersFor(e) == if e == ConnectEvent then [OnConnected] else []
      ensures invocations == []
      ensures socket != null ==>
        && this.socket == socket
        && socket.log == old(socket.log) + [Request.On(Wildcard)]
        && socket.connected == old(socket.connected)
      ensures socket == null ==>
        && fresh(this.socket)
        && this.socket.options == DefaultOptions
        && this.socket.gateway == gateway
        && this.socket.log == [Request.On(Wildcard)]
        && !this.socket.connected
    {
      this.token := token;
      this.behaviour := behaviour;
      if socket != null {
        this.socket := socket;
      } else {
        this.socket := new Socket(DefaultOptions, gateway);
      }
      listeners := map[];
      invocations := [];
      new;
      this.socket.On(Wildcard);
      AddEventListener(ConnectEvent, OnConnected);
    }

    /** A no-op when the socket is already connected; otherwise exactly one
        handshake, with the fixed endpoint and the token, whose failure is
        passed on to the caller. */
    method Connect() returns (r: Result<()>)
      modifies socket
      ensures old(socket.connected) ==>
        r == Ok(()) && socket.connected && socket.log == old(socket.log)
      ensures !old(socket.connected) ==>
        && socket.log == old(socket.log) + [ConnectRequest(token)]
        && r == socket.gateway.handshake(map["token" := token])
        && (socket.connected <==> r.Ok?)
      ensures ConnectAttempts(socket.log)
           == ConnectAttempts(old(socket.log)) + (if old(socket.connected) then 0 else 1)
    {
      if socket.connected {
        return Ok(());
      }
      r := socket.Connect(OnlyCatUrl, ["websocket"], "/", Headers, map["token" := token]);
      ConnectAttemptsAppend(old(socket.log), [ConnectRequest(token)]);
    }

    /** Always disconnect, then shut the socket down: these two requests and nothing else. */
    method Disconnect()
      modifies socket
      ensures socket.log == old(socket.log) + [Request.Disconnect, Request.Shutdown]
      ensures !socket.connected
    {
      socket.Disconnect();
      socket.Shutdown();
    }

    /** Append `callback` to the list for `event`, leaving every other event's
        list as it was. */
    method AddEventListener(event: EventName, callback: HandlerId)
      modifies this
      ensures ListenersFor(event) == old(ListenersFor(event)) + [callback]
      ensures forall e :: e != event ==> ListenersFor(e) == old(ListenersFor(e))
      ensures listeners.Keys == old(listeners.Keys) + {event}
      ensures invocations == old(invocations)
    {
      listeners := Register(listeners, event, callback);
    }

    /** The catch-all handler: call every callback registered for `event`,
        once each, in registration order, with `args`; a callback that raises
        an Exception is logged and skipped over. Reading the registry
        may add an empty list for `event`, but no event's callbacks change. */
    method HandleEvent(event: EventName, args: Args)
      modifies this
      ensures invocations == old(invocations) + FanOut(old(ListenersFor(event)), args, behaviour)
      ensures forall e :: ListenersFor(e) == old(ListenersFor(e))
      ensures listeners.Keys == old(listeners.Keys) + {event}
    {
      listeners := Touch(listeners, event);
      var callbacks := listeners[event];
      var i := 0;
      while i < |callbacks|
        invariant 0 <= i <= |callbacks|
        invariant listeners == Touch(old(listeners), event)
        invariant invocations == old(invocations) + FanOut(callbacks[..i], args, behaviour)
      {
        // a callback that raises is logged and swallowed; the loop goes on
        var raised := Raises(behaviour, callbacks[i], args);
        FanOutAppend(callbacks[..i], [callbacks[i]], args, behaviour);
        assert callbacks[..i + 1] == callbacks[..i] + [callbacks[i]];
        invocations := invocations + [Invocation(callbacks[i], args, raised)];
        i := i + 1;
      }
      assert callbacks[..i] == callbacks;
    }

    /** One call to the gateway; its answer or error is returned unchanged. */
    method SendMessage(event: string, data: Value) returns (r: Result<Option<Value>>)
      modifies socket
      ensures socket.log == old(socket.log) + [Request.Call(event, data)]
      ensures socket.connected == old(socket.connected)
      ensures r == CallOutcome(old(socket.connected), socket.gateway, event, data)
    {
      r := socket.Call(event, data);
    }

    /** Wait on the socket until the client is disconnected. */
    method Wait()
      modifies socket
      ensures socket.log == old(socket.log) + [Request.Wait]
      ensures !socket.connected
    {
      socket.Wait();
    }
  }

  /** Connecting twice with no disconnect between: no handshake when the
      socket was already connected; exactly one when the first connect
      succeeds, the second then being a no-op; and two when the first fails,
      since the second connect tries again. */
  method ConnectTwice(client: OnlyCatApiClient) returns (first: Result<()>, second: Result<()>)
    modifies client.socket
    ensures (old(client.socket.connected) || first.Ok?) ==> second == Ok(())
    ensures old(client.socket.connected) ==>
      ConnectAttempts(client.socket.log) == ConnectAttempts(old(client.socket.log))
    ensures !old(client.socket.connected) && first.Ok? ==>
      ConnectAttempts(client.socket.log) == ConnectAttempts(old(client.socket.log)) + 1
    ensures !old(client.socket.connected) && first.Err? ==>
      ConnectAttempts(client.socket.log) == ConnectAttempts(old(client.socket.log)) + 2
  {
    first := client.Connect();
    second := client.Connect();
  }

  /** Two callbacks for "ping", the first of which raises: handling "ping"
      still calls the second with the event's payload, and returns normally. */
  method FailingCallbackScenario(socket: Socket, gateway: Gateway) returns (client: OnlyCatApiClient)
    modifies socket
    ensures fresh(client)
    ensures client.invocations
         == [Invocation(Callback(1), [Str("payload")], true), Invocation(Callback(2), [Str("payload")], false)]
  {
    var failing := Callback(1);
    client := new OnlyCatApiClient("token", socket, gateway, (h, args) => h == failing);
    client.AddEventListener("ping", Callback(1));
    client.AddEventListener("ping", Callback(2));
    assert client.ListenersFor("ping") == [Callback(1), Callback(2)];
    client.HandleEvent("ping", [Str("payload")]);
    FanOutAt([Callback(1), Callback(2)], [Str("payload")], client.behaviour, 0);
    FanOutAt([Callback(1), Callback(2)], [Str("payload")], client.behaviour, 1);
  }
}
