/** What `handle_event` does with the list of callbacks for one event: call
    each in registration order with the event's arguments, and when a callback
    raises, log the error and go on with the next. */
module Dispatcher {
  import opened Registry
  import opened Transport

  /** The positional arguments of an event. */
  type Args = seq<Value>

  /** How the registered callbacks behave: whether calling `h` with `args`
      raises. It is given from outside: callbacks are not part of the client. */
  type Behaviour = (HandlerId, Args) -> bool

  /** One awaited callback call and whether it raised. */
  datatype Invocation = Invocation(handler: HandlerId, args: Args, raised: bool)

  /** `on_connected` takes no positional arguments and only logs, so it
      raises (a TypeError) exactly when it is called with arguments; other
      callbacks raise as `b` says. */
  function Raises(b: Behaviour, h: HandlerId, args: Args): bool
  {
    match h
    case OnConnected => args != []
    case Callback(_) => b(h, args)
  }

  /** The calls `handle_event` makes for the callback list `hs`. Each call is
      wrapped in try/except, so a raising callback does not end the loop. */
  function FanOut(hs: seq<HandlerId>, args: Args, b: Behaviour): (r: seq<Invocation>)
    ensures |r| == |hs|
  {
    if hs == [] then []
    else [Invocation(hs[0], args, Raises(b, hs[0], args))] + FanOut(hs[1..], args, b)
  }

  /** The same loop without the try/except: the first callback that raises
      ends it. A reference to compare `FanOut` with. */
  function Unguarded(hs: seq<HandlerId>, args: Args, b: Behaviour): seq<Invocation>
  {
    if hs == [] then []
    else if Raises(b, hs[0], args) then [Invocation(hs[0], args, true)]
    else [Invocation(hs[0], args, false)] + Unguarded(hs[1..], args, b)
  }

  /** The handlers called, in call order. */
  function Invoked(calls: seq<Invocation>): (r: seq<HandlerId>)
    ensures |r| == |calls|
  {
    if calls == [] then [] else [calls[0].handler] + Invoked(calls[1..])
  }

  /** The k-th call is to the k-th registered callback, with the event's
      arguments, and raises exactly when that callback does. */
  lemma {:induction false} FanOutAt(hs: seq<HandlerId>, args: Args, b: Behaviour, k: nat)
    requires k < |hs|
    ensures FanOut(hs, args, b)[k]
         == Invocation(hs[k], args, if hs[k] == OnConnected then args != [] else b(hs[k], args))
  {
    if k > 0 {
      FanOutAt(hs[1..], args, b, k - 1);
    }
  }

  /** Dispatching a list split in two is dispatching each half in turn: what
      happens to the later callbacks does not depend on the earlier ones. */
  lemma {:induction false} FanOutAppend(a: seq<HandlerId>, c: seq<HandlerId>, args: Args, b: Behaviour)
    ensures FanOut(a + c, args, b) == FanOut(a, args, b) + FanOut(c, args, b)
  {
    if a == [] {
      assert a + c == c;
    } else {
      assert (a + c)[1..] == a[1..] + c;
      FanOutAppend(a[1..], c, args, b);
    }
  }

  /** Exactly the registered callbacks are called, each once per
      registration, in registration order, all with the same arguments. */
  lemma {:induction false} InvokedExactlyRegistered(hs: seq<HandlerId>, args: Args, b: Behaviour)
    ensures Invoked(FanOut(hs, args, b)) == hs
    ensures forall c :: c in FanOut(hs, args, b) ==> c.args == args
  {
    if hs != [] {
      InvokedExactlyRegistered(hs[1..], args, b);
    }
  }

  /** A callback that raises at position k does not stop the calls at
      positions k+1 and on. */
  lemma FailureIsolation(hs: seq<HandlerId>, args: Args, b: Behaviour, k: nat)
    requires k < |hs| && Raises(b, hs[k], args)
    ensures FanOut(hs, args, b)[k].raised
    ensures forall j :: k < j < |hs| ==> FanOut(hs, args, b)[j].handler == hs[j] && FanOut(hs, args, b)[j].args == args
  {
    FanOutAt(hs, args, b, k);
    forall j | k < j < |hs|
      ensures FanOut(hs, args, b)[j].handler == hs[j] && FanOut(hs, args, b)[j].args == args
    {
      FanOutAt(hs, args, b, j);
    }
  }

  /** Without the try/except the calls are a prefix of those made with it... */
  lemma {:induction false} UnguardedIsPrefix(hs: seq<HandlerId>, args: Args, b: Behaviour)
    ensures Unguarded(hs, args, b) <= FanOut(hs, args, b)
  {
    if hs != [] && !Raises(b, hs[0], args) {
      UnguardedIsPrefix(hs[1..], args, b);
    }
  }

  /** ...and a callback that raises before the last one cuts them short,
      so the try/except is what lets the later callbacks run. */
  lemma {:induction false} UnguardedStopsAtRaise(hs: seq<HandlerId>, args: Args, b: Behaviour, k: nat)
    requires k < |hs| && Raises(b, hs[k], args)
    ensures |Unguarded(hs, args, b)| <= k + 1
  {
    if k > 0 && !Raises(b, hs[0], args) {
      UnguardedStopsAtRaise(hs[1..], args, b, k - 1);
    }
  }

  /** When no callback raises, the two loops make the same calls. */
  lemma {:induction false} UnguardedWhenNoneRaise(hs: seq<HandlerId>, args: Args, b: Behaviour)
    requires forall k :: 0 <= k < |hs| ==> !Raises(b, hs[k], args)
    ensures Unguarded(hs, args, b) == FanOut(hs, args, b)
  {
    if hs != [] {
      assert !Raises(b, hs[0], args);
      assert forall k :: 0 <= k < |hs[1..]| ==> hs[1..][k] == hs[k + 1];
      UnguardedWhenNoneRaise(hs[1..], args, b);
    }
  }

  /** Registering the same callback twice makes it called twice per event:
      there is no de-duplication. */
  lemma RegisteredTwiceCalledTwice(m: Listeners, e: EventName, h: HandlerId, args: Args, b: Behaviour)
    ensures multiset(Invoked(FanOut(Lookup(Register(Register(m, e, h), e, h), e), args, b)))[h]
         == multiset(Invoked(FanOut(Lookup(m, e), args, b)))[h] + 2
  {
    var before := Lookup(m, e);
    var after := Lookup(Register(Register(m, e, h), e, h), e);
    assert after == before + [h, h];
    InvokedExactlyRegistered(before, args, b);
    InvokedExactlyRegistered(after, args, b);
  }

  /** On a fresh client, a "connect" event calls `on_connected` alone, which
      raises exactly when the event carries arguments; either way the call
      is made and the dispatch completes. */
  lemma ConnectEventCallsOnConnected(args: Args, b: Behaviour)
    ensures FanOut(Lookup(InitialListeners(), ConnectEvent), args, b)
         == [Invocation(OnConnected, args, args != [])]
  {
  }
}
