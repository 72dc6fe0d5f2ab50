/** The renderer-side hub: a publish/subscribe registry in which every channel has
    an ordered list of listeners, reached through a lazily created singleton. */
module RendererHubs {
  import opened JsValues
  import opened JsArrays

  const NameNotString := "[electron-ipc-browser renderer] param name is not string"
  const HandlerNotFunction := "[electron-ipc-browser renderer] param handler is not function"

  /** What one `emit` did: the listener calls made, in order, and how it ended. */
  datatype Broadcast = Broadcast(calls: seq<Call>, status: Status)

  /** The listener list of a channel, empty when the channel has none. */
  function ListenersOf(all: map<string, seq<HandlerId>>, name: string): seq<HandlerId>
  {
    if name in all then all[name] else []
  }

  /** `handlers.forEach(fn => fn(data))` as a reference definition, read off the
      list from the front. */
  function Dispatch(hs: seq<HandlerId>, data: Value, run: (HandlerId, Value) -> Response): (b: Broadcast)
    ensures |b.calls| <= |hs|
    ensures b.status == Done ==> |b.calls| == |hs|
    ensures b.status.Failed? ==> b.status.error.Thrown? && 0 < |b.calls|
    decreases |hs|
  {
    if hs == [] then Broadcast([], Done)
    else
      match run(hs[0], data)
      case Threw(e) => Broadcast([Call(hs[0], data)], Failed(Thrown(e)))
      case Returned(_) =>
        var rest := Dispatch(hs[1..], data, run);
        Broadcast([Call(hs[0], data)] + rest.calls, rest.status)
  }

  /** A dispatch calls listeners from the front of the list, each once and with the
      same `data`, and it only moves past a listener that returned. */
  lemma {:induction false} DispatchOrder(hs: seq<HandlerId>, data: Value, run: (HandlerId, Value) -> Response)
    ensures var b := Dispatch(hs, data, run);
      && |b.calls| <= |hs|
      && (forall k :: 0 <= k < |b.calls| ==> b.calls[k] == Call(hs[k], data))
      && (forall k :: 0 <= k < |b.calls| - 1 ==> run(hs[k], data).Returned?)
    decreases |hs|
  {
    if hs != [] && run(hs[0], data).Returned? {
      DispatchOrder(hs[1..], data, run);
      var rest := Dispatch(hs[1..], data, run);
      assert Dispatch(hs, data, run).calls == [Call(hs[0], data)] + rest.calls;
      assert forall k :: 1 <= k < |hs| ==> hs[k] == hs[1..][k - 1];
    }
  }

  /** A dispatch completes, having called every listener, exactly when none of them
      throws; otherwise its last call is to the first listener that throws, and that
      error passes to the caller unchanged. */
  lemma {:induction false} DispatchOutcome(hs: seq<HandlerId>, data: Value, run: (HandlerId, Value) -> Response)
    ensures var b := Dispatch(hs, data, run);
      && (b.status == Done <==> forall k :: 0 <= k < |hs| ==> run(hs[k], data).Returned?)
      && (b.status == Done ==> |b.calls| == |hs|)
      && (b.status.Failed? ==>
            0 < |b.calls| <= |hs| && run(hs[|b.calls| - 1], data).Threw? &&
            b.status.error == Thrown(run(hs[|b.calls| - 1], data).thrown))
    decreases |hs|
  {
    if hs != [] && run(hs[0], data).Returned? {
      DispatchOutcome(hs[1..], data, run);
      var rest := Dispatch(hs[1..], data, run);
      assert Dispatch(hs, data, run) == Broadcast([Call(hs[0], data)] + rest.calls, rest.status);
      if rest.status == Done {
        forall k | 0 <= k < |hs| ensures run(hs[k], data).Returned? {
          if k > 0 { assert hs[k] == hs[1..][k - 1]; }
        }
      } else {
        assert hs[|rest.calls|] == hs[1..][|rest.calls| - 1];
      }
    }
  }

  /** A listener registered later runs after every earlier one: dispatching over
      `hs + [h]` is the dispatch over `hs` followed, if that completed, by one call
      of `h`. */
  lemma {:induction false} DispatchAppend(hs: seq<HandlerId>, h: HandlerId, data: Value, run: (HandlerId, Value) -> Response)
    ensures var b := Dispatch(hs, data, run);
      Dispatch(hs + [h], data, run) ==
        if b.status == Done then Broadcast(b.calls + [Call(h, data)], Settled(run(h, data)))
        else b
    decreases |hs|
  {
    if hs == [] {
      assert [] + [h] == [h];
    } else {
      assert (hs + [h])[1..] == hs[1..] + [h];
      if run(hs[0], data).Returned? {
        DispatchAppend(hs[1..], h, data, run);
      }
    }
  }

  /** How a single listener call ends a dispatch. */
  function Settled(response: Response): Status
  {
    match response
    case Returned(_) => Done
    case Threw(e) => Failed(Thrown(e))
  }

  /** `calls` made before the rest of a dispatch. */
  function After(calls: seq<Call>, b: Broadcast): Broadcast
  {
    Broadcast(calls + b.calls, b.status)
  }

  class RendererHub {
    /** `_all`: channel name to its listener array. */
    var listeners: map<string, seq<HandlerId>>

    /** Every listener list is an ECMAScript array, so it holds at most 2^32 - 1 entries. */
    ghost predicate Valid()
      reads this
    {
      forall name :: name in listeners ==> |listeners[name]| <= MaxArrayLength
    }

    constructor ()
      ensures Valid() && listeners == map[]
    {
      listeners := map[];
    }

    /** `on(name, handler)`: validate both arguments, then append `handler` to the
        channel's list (duplicates kept), creating `[handler]` for a new channel.
        Pushing to an array already at its maximum length throws a RangeError. */
    method On(name: Value, handler: Value) returns (status: Status)
      requires Valid()
      modifies this
      ensures Valid()
      ensures !IsString(name) ==> status == Failed(TypeError(NameNotString)) && listeners == old(listeners)
      ensures IsString(name) && !IsFunction(handler) ==>
                status == Failed(TypeError(HandlerNotFunction)) && listeners == old(listeners)
      ensures IsString(name) && IsFunction(handler) && |ListenersOf(old(listeners), name.s)| == MaxArrayLength ==>
                status == Failed(RangeError) && listeners == old(listeners)
      ensures IsString(name) && IsFunction(handler) && |ListenersOf(old(listeners), name.s)| < MaxArrayLength ==>
                status == Done &&
                listeners == old(listeners)[name.s := ListenersOf(old(listeners), name.s) + [handler.id]]
    {
      if !IsString(name) {
        return Failed(TypeError(NameNotString));
      }
      if !IsFunction(handler) {
        return Failed(TypeError(HandlerNotFunction));
      }
      if name.s in listeners {
        var hs := listeners[name.s];
        if |hs| == MaxArrayLength {
          return Failed(RangeError);
        }
        listeners := listeners[name.s := hs + [handler.id]];
      } else {
        assert ListenersOf(listeners, name.s) + [handler.id] == [handler.id];
        listeners := listeners[name.s := [handler.id]];
      }
      status := Done;
    }

    /** `off(name, handler?)`: validate the name, and the handler when it is truthy. A
        falsy (omitted) handler removes the whole channel; a function removes the first
        entry equal to it, keeping the order and multiplicity of the rest, and changes
        nothing when it is not listed or the channel is absent. */
    method Off(name: Value, handler: Value) returns (status: Status)
      requires Valid()
      modifies this
      ensures Valid()
      ensures !IsString(name) ==> status == Failed(TypeError(NameNotString)) && listeners == old(listeners)
      ensures IsString(name) && Truthy(handler) && !IsFunction(handler) ==>
                status == Failed(TypeError(HandlerNotFunction)) && listeners == old(listeners)
      ensures IsString(name) && !Truthy(handler) ==>
                status == Done && listeners == old(listeners) - {name.s}
      ensures IsString(name) && IsFunction(handler) ==>
                status == Done &&
                listeners == if name.s in old(listeners)
                             then old(listeners)[name.s := RemoveFirst(old(listeners)[name.s], handler.id)]
                             else old(listeners)
    {
      if !IsString(name) {
        return Failed(TypeError(NameNotString));
      }
      if Truthy(handler) && !IsFunction(handler) {
        return Failed(TypeError(HandlerNotFunction));
      }
      if !Truthy(handler) {
        listeners := listeners - {name.s};
        return Done;
      }
      if name.s in listeners {
        var hs := listeners[name.s];
        SpliceIndexOfRemovesFirst(hs, handler.id);
        listeners := listeners[name.s := Splice(hs, ToUint32(IndexOf(hs, handler.id)), 1)];
      }
      status := Done;
    }

    /** `emit(name, data)`: a non-string name throws; an absent channel is a silent
        no-op; otherwise the listeners are called as `Dispatch` describes. `run` stands
        for the foreign listeners' behaviour. */
    method Emit(name: Value, data: Value, run: (HandlerId, Value) -> Response)
      returns (calls: seq<Call>, status: Status)
      ensures !IsString(name) ==> calls == [] && status == Failed(TypeError(NameNotString))
      ensures IsString(name) && name.s !in listeners ==> calls == [] && status == Done
      ensures IsString(name) && name.s in listeners ==>
                Broadcast(calls, status) == Dispatch(listeners[name.s], data, run)
    {
      calls := [];
      status := Done;
      if !IsString(name) {
        status := Failed(TypeError(NameNotString));
        return;
      }
      if name.s !in listeners {
        return;
      }
      var hs := listeners[name.s];
      var i := 0;
      while i < |hs|
        invariant 0 <= i <= |hs|
        invariant status == Done
        invariant Dispatch(hs, data, run) == After(calls, Dispatch(hs[i..], data, run))
      {
        assert hs[i..][1..] == hs[i + 1..];
        var response := run(hs[i], data);
        if response.Threw? {
          assert Dispatch(hs[i..], data, run) == Broadcast([Call(hs[i], data)], Failed(Thrown(response.thrown)));
          calls := calls + [Call(hs[i], data)];
          status := Failed(Thrown(response.thrown));
          return;
        }
        assert Dispatch(hs[i..], data, run) == After([Call(hs[i], data)], Dispatch(hs[i + 1..], data, run));
        calls := calls + [Call(hs[i], data)];
        i := i + 1;
      }
      assert hs[i..] == [];
    }
  }

  /** The module-level `singleRendererHub` variable and its accessor. */
  class RendererHubSingleton {
    var instance: RendererHub?

    ghost predicate Valid()
      reads this, instance
    {
      instance != null ==> instance.Valid()
    }

    constructor ()
      ensures Valid() && instance == null
    {
      instance := null;
    }

    /** `useRendererHub()`: the first call creates an empty hub and stores it; every
        later call returns that same hub untouched. */
    method UseRendererHub() returns (hub: RendererHub)
      requires Valid()
      modifies this
      ensures Valid() && hub.Valid()
      ensures instance == hub
      ensures old(instance) != null ==> hub == old(instance) && unchanged(hub)
      ensures old(instance) == null ==> fresh(hub) && hub.listeners == map[]
    {
      if instance != null {
        return instance;
      }
      hub := new RendererHub();
      instance := hub;
    }
  }
}
