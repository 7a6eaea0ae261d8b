/** The listener registry of the API client: a `defaultdict(list)` from event
    name to the callbacks registered for it, in registration order. A missing
    key reads as the empty list. */
module Registry {

  /** A registered callback, by identity. `OnConnected` is the client's own
      handler for the "connect" event; `Callback(n)` is any other. */
  datatype HandlerId = OnConnected | Callback(id: nat)

  type EventName = string

  type Listeners = map<EventName, seq<HandlerId>>

  const ConnectEvent: EventName := "connect"

  /** The list a `defaultdict(list)` gives for `e`. */
  function Lookup(m: Listeners, e: EventName): seq<HandlerId>
  {
    if e in m then m[e] else []
  }

  /** `listeners[e].append(h)`: `h` goes to the end of `e`'s list, created
      empty if absent; no other event's list changes and nothing is
      de-duplicated. */
  function Register(m: Listeners, e: EventName, h: HandlerId): (r: Listeners)
    ensures Lookup(r, e) == Lookup(m, e) + [h]
    ensures forall k :: k != e ==> Lookup(r, k) == Lookup(m, k)
    ensures r.Keys == m.Keys + {e}
  {
    m[e := Lookup(m, e) + [h]]
  }

  /** The side effect of reading `listeners[e]`: a missing key is inserted
      with an empty list, so every event still reads the same list. */
  function Touch(m: Listeners, e: EventName): (r: Listeners)
    ensures forall k :: Lookup(r, k) == Lookup(m, k)
    ensures r.Keys == m.Keys + {e}
  {
    if e in m then m else m[e := []]
  }

  /** The registry right after construction: only `OnConnected`, for "connect". */
  function InitialListeners(): (r: Listeners)
    ensures forall e :: Lookup(r, e) == if e == ConnectEvent then [OnConnected] else []
    ensures r.Keys == {ConnectEvent}
  {
    Register(map[], ConnectEvent, OnConnected)
  }
}
