# OnlyCat API client, modelled in Dafny

This project models `OnlyCatApiClient`, the client through which the OnlyCat
Home Assistant integration talks to the OnlyCat gateway over socket.io. The
client keeps a listener registry (event name to an ordered list of
callbacks), dispatches the events the transport routes to its catch-all
handler to the callbacks registered for them, and guards the socket's connect, disconnect, call and wait
operations.

- `transport.dfy` (module `Transport`): the socket.io client as the API client
  sees it. `Socket` has a `connected` flag and a log of the requests made of
  it (`On`, `Connect`, `Disconnect`, `Shutdown`, `Call`, `Wait`). The remote end
  is a `Gateway` value that says whether a handshake is accepted and how a
  call is answered. Payloads are a JSON-like `Value`.
- `registry.dfy` (module `Registry`): the `defaultdict(list)` registry as
  pure functions. `Lookup` reads a missing key as the empty list. `Register`
  appends. `Touch` is the insertion a read of a missing key makes.
- `dispatcher.dfy` (module `Dispatcher`): `FanOut`, the calls the
  `handle_event` loop makes for a list of callbacks. `Unguarded` is the same
  loop without its try/except, kept as a reference. The lemmas relate them.
  `Raises`, a helper of both with no contract of its own, defines the
  outcome of one call; `FanOutAt` states it for every call the loop makes.
- `api.dfy` (module `OnlyCatApi`): the class `OnlyCatApiClient`. Its
  `listeners` map is updated in place. Its ghost `invocations` log records
  every callback call with its arguments and whether it raised.
  `AddEventListener` and `HandleEvent` are proved against the registry and
  dispatcher functions above. `Connect`, `Disconnect`, `SendMessage` and
  `Wait` are proved against the contracts of `Socket`'s methods. Two methods
  of the module prove two scenarios: connecting twice, and a raising callback followed by a good one.

Callbacks are identified by `HandlerId`: `OnConnected` is the client's own
`on_connected`, and `Callback(n)` is any other. Whether a callback raises for
given arguments is the client's `behaviour` parameter. `on_connected` takes
no positional arguments and only logs. It is called as `callback(*args)`, so
it raises a TypeError exactly when the "connect" event carries arguments.
The try/except then logs that error like any other.

The stand-in socket behaves as follows. A handshake the gateway accepts
leaves it connected. A refused one leaves it disconnected. `Disconnect`
leaves it disconnected. A call made while disconnected fails with
`NotConnected`. These are assumptions about the library, not behaviour of
the client.

## Model

| member | source | states |
|---|---|---|
| `Registry.Register` | custom_components/onlycat/api.py:85 | the new list for the event is the old list (empty if absent) with the callback appended at the end; every other event's list is unchanged; the key set gains only the event |
| `Registry.Touch` | custom_components/onlycat/api.py:91 | reading the registry for an event may insert that key, but every event still reads the same list |
| `Registry.InitialListeners` | custom_components/onlycat/api.py:51-61 | after construction "connect" has exactly `[OnConnected]` and every other event has no callbacks |
| `Dispatcher.FanOut` | custom_components/onlycat/api.py:91-97 | the loop makes one call per registered callback, including after a call that raised |
| `Dispatcher.FanOutAt` | custom_components/onlycat/api.py:91-110 | the k-th call goes to the k-th registered callback, with the event's arguments; a call of `on_connected`, which takes no positional arguments, raises exactly when the arguments are not empty, and any other callback raises as the client's `behaviour` says |
| `Dispatcher.FanOutAppend` | custom_components/onlycat/api.py:91-97 | dispatching a list is dispatching its first part, then its second part; the calls made for later callbacks do not depend on what earlier ones did |
| `Dispatcher.InvokedExactlyRegistered` | custom_components/onlycat/api.py:91-93 | the callbacks called, in order, are exactly the registered list, so each is called once per registration; every call gets the same arguments |
| `Dispatcher.FailureIsolation` | custom_components/onlycat/api.py:92-97 | if the callback at position k raises, the callbacks at positions after k are still called, in order, with the same arguments |
| `Dispatcher.UnguardedIsPrefix` | custom_components/onlycat/api.py:92-97 | without the try/except the calls made are a prefix of the calls made with it |
| `Dispatcher.UnguardedStopsAtRaise` | custom_components/onlycat/api.py:92-97 | without the try/except a raise at position k leaves at most k+1 calls, so the try/except is what lets later callbacks run |
| `Dispatcher.UnguardedWhenNoneRaise` | custom_components/onlycat/api.py:92-97 | when no callback raises, the loop makes the same calls with or without the try/except |
| `Dispatcher.ConnectEventCallsOnConnected` | custom_components/onlycat/api.py:91-110 | on a fresh client `handle_event("connect", ...)` makes exactly one call, to `on_connected`, which raises exactly when the event carries arguments |
| `Dispatcher.RegisteredTwiceCalledTwice` | custom_components/onlycat/api.py:85-93 | registering one callback twice for an event adds two calls to it per dispatch of that event; there is no de-duplication |
| `OnlyCatApi.OnlyCatApiClient.constructor` | custom_components/onlycat/api.py:40-61 | uses the given socket, or creates one with reconnection on, unlimited attempts, a 10 second delay and TLS verification; subscribes a catch-all handler for "*"; registers `on_connected` for "connect" and nothing else |
| `OnlyCatApi.OnlyCatApiClient.Connect` | custom_components/onlycat/api.py:63-75 | already connected: no request and normal return; otherwise exactly one handshake to the fixed URL, with the websocket transport only, namespace "/", the platform and device headers and `{"token": token}`, and its failure is returned to the caller |
| `OnlyCatApi.OnlyCatApiClient.Disconnect` | custom_components/onlycat/api.py:77-81 | requests disconnect and then shutdown, in that order and nothing else |
| `OnlyCatApi.OnlyCatApiClient.AddEventListener` | custom_components/onlycat/api.py:83-86 | the event's list becomes the old list plus the callback at the end; every other event's list is unchanged |
| `OnlyCatApi.OnlyCatApiClient.HandleEvent` | custom_components/onlycat/api.py:88-97 | the calls made are `FanOut` of the event's registered list (none for an unregistered event); the method returns normally whatever Exception a callback raises; no event's callbacks change |
| `OnlyCatApi.OnlyCatApiClient.SendMessage` | custom_components/onlycat/api.py:99-102 | one `call(event, data)` request, whose answer or error is returned unchanged |
| `OnlyCatApi.OnlyCatApiClient.Wait` | custom_components/onlycat/api.py:104-106 | one `wait` request and nothing else; when it returns the socket is disconnected |
| `OnlyCatApi.ConnectTwice` | custom_components/onlycat/api.py:63-75 | two connects in a row make no handshake when already connected; exactly one when the first succeeds, the second then returning normally; exactly two when the first fails, because the second tries again |
| `OnlyCatApi.FailingCallbackScenario` | custom_components/onlycat/api.py:88-97 | with two "ping" callbacks of which the first raises, handling "ping" with "payload" calls both, in order, with "payload" |

## Left out

- The socket.io library is not modelled: its handshake, reconnection loop, heartbeat and call correlation. `Socket` only records requests. Its `connected` flag follows the simple rules above.
- Async scheduling and cancellation are not modelled. Each awaited callback is one sequential step that either returns or raises.
- Logging calls are not modelled. They have no effect on behaviour.
- The exception classes `OnlyCatApiClientError`, `OnlyCatApiClientCommunicationError` and `OnlyCatApiClientAuthenticationError` are left out, because the client never raises them. A failed handshake reaches the caller as the transport's own error, so the model has no authentication-versus-communication distinction.
- `OnlyCatApi.OnlyCatApiClient.Disconnect` assumes the socket's `disconnect` and `shutdown` do not raise. If `disconnect` raised, the code would not reach `shutdown`, because it has no try/except.
- The model does not cover callbacks that register listeners during dispatch. Callbacks are abstract and cannot touch the registry. The Python loop iterates the live list, so it would see such appends.
- Callbacks are modelled only by whether they raise, as a fixed function of the handler and the arguments. A callback's outcome cannot depend on state changed by earlier callbacks. Callbacks cannot use the socket either, for example to call `send_message`, because `HandleEvent` changes only the client. Neither limit changes which callbacks are called, in what order, or with what arguments.
- Which events the socket.io library routes to its "*" catch-all is not modelled. python-socketio does not route its reserved events, such as "connect" and "disconnect", there. So `Dispatcher.ConnectEventCallsOnConnected` describes a direct `handle_event("connect", ...)` call, not something that happens on every connection.
- `OnlyCatApi.OnlyCatApiClient.Wait` records the request and the disconnected state on return, but does not model blocking until the session closes.
- `OnlyCatApi.OnlyCatApiClient.HandleEvent` treats every raise as an `Exception`. The source catches only `Exception`. A callback raising another `BaseException` (`KeyboardInterrupt`, `SystemExit`, `asyncio.CancelledError`) would end the loop, skip the later callbacks and escape `handle_event`. The model does not cover that case.
- The `_data` and `_session` fields are left out. They are stored but not used by this class. The HTTP session passed to a created socket is not modelled either.
- What `on_connected` logs is left out. It is modelled as the handler `OnConnected`, which raises only when it is called with arguments.
