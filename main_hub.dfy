/** The main-side hub: a call/response registry in which every channel name is
    bound to at most one handler, reached through a lazily created singleton. */
module MainHubs {
  import opened JsValues

  const NameNotString := "[electron-ipc-browser main] param name is not string"
  const HandlerNotFunction := "[electron-ipc-browser main] param handler is not function"
  /** The message `off` really throws for a non-string name (it says "function"). */
  const OffNameNotString := "param name is not function"
  const NotListenPrefix := "[electron-ipc-browser main] main process not listen "

  /** How the promise returned by `emit` settles. */
  datatype Outcome = Resolved(value: Value) | Rejected(error: Error)

  /** The message of the rejection for an unbound channel `name`. */
  function NotListeningMessage(name: string): (m: string)
    ensures |m| > |name| + 11
    ensures m[|m| - |name| - 11..] == "not listen " + name
  {
    var m := NotListenPrefix + name;
    assert NotListenPrefix[|NotListenPrefix| - 11..] == "not listen ";
    assert m[|m| - |name| - 11..] == NotListenPrefix[|NotListenPrefix| - 11..] + name;
    m
  }

  /** The `message` of an error the main hub raises itself (a value thrown by a
      handler carries its own). */
  function Message(e: Error): (m: string)
    requires e.TypeError? || (e.NotListening? && e.name.Str?)
    ensures e.TypeError? ==> m == e.message
    ensures e.NotListening? ==>
              |m| > |e.name.s| + 11 && m[|m| - |e.name.s| - 11..] == "not listen " + e.name.s
  {
    if e.TypeError? then e.message else NotListeningMessage(e.name.s)
  }

  /** A handler's response, as the promise of an async function sees it: a returned
      value resolves it, a thrown one rejects it unchanged. */
  function Settle(response: Response): (o: Outcome)
    ensures response.Returned? <==> o.Resolved?
    ensures o.Resolved? ==> o.value == response.value
    ensures o.Rejected? ==> o.error == Thrown(response.thrown)
  {
    match response
    case Returned(v) => Resolved(v)
    case Threw(e) => Rejected(Thrown(e))
  }

  class MainHub {
    /** `_all`: channel name to its one handler. */
    var handlers: map<string, HandlerId>

    constructor ()
      ensures handlers == map[]
    {
      handlers := map[];
    }

    /** `on(name, handler)`: validate both arguments, then bind `handler` to `name`,
        replacing any earlier binding; every other binding is kept. */
    method On(name: Value, handler: Value) returns (status: Status)
      modifies this
      ensures !IsString(name) ==> status == Failed(TypeError(NameNotString)) && handlers == old(handlers)
      ensures IsString(name) && !IsFunction(handler) ==>
                status == Failed(TypeError(HandlerNotFunction)) && handlers == old(handlers)
      ensures IsString(name) && IsFunction(handler) ==>
                status == Done && handlers == old(handlers)[name.s := handler.id]
    {
      if !IsString(name) {
        return Failed(TypeError(NameNotString));
      }
      if !IsFunction(handler) {
        return Failed(TypeError(HandlerNotFunction));
      }
      handlers := handlers[name.s := handler.id];
      status := Done;
    }

    /** `off(name)`: validate the name, then drop its binding if there is one. */
    method Off(name: Value) returns (status: Status)
      modifies this
      ensures !IsString(name) ==> status == Failed(TypeError(OffNameNotString)) && handlers == old(handlers)
      ensures IsString(name) ==> status == Done && handlers == old(handlers) - {name.s}
      ensures IsString(name) && name.s !in old(handlers) ==> handlers == old(handlers)
    {
      if !IsString(name) {
        return Failed(TypeError(OffNameNotString));
      }
      if name.s in handlers {
        handlers := handlers - {name.s};
      }
      status := Done;
    }

    /** `emit(name, data)`: the bound handler is called exactly once, with `data`, and
        the promise settles as that call does; with no binding (a non-string name is
        never bound) nothing is called and the promise rejects naming the channel.
        `run` stands for the foreign handlers' behaviour. */
    method Emit(name: Value, data: Value, run: (HandlerId, Value) -> Response)
      returns (calls: seq<Call>, outcome: Outcome)
      ensures (name.Str? && name.s in handlers) ==>
                calls == [Call(handlers[name.s], data)] && outcome == Settle(run(handlers[name.s], data))
      ensures !(name.Str? && name.s in handlers) ==>
                calls == [] && outcome == Rejected(NotListening(name))
      ensures name.Str? && name.s !in handlers ==>
                var m := Message(outcome.error);
                |m| > |name.s| + 11 && m[|m| - |name.s| - 11..] == "not listen " + name.s
    {
      if name.Str? && name.s in handlers {
        var handler := handlers[name.s];
        var response := run(handler, data);
        calls := [Call(handler, data)];
        outcome := Settle(response);
      } else {
        calls := [];
        outcome := Rejected(NotListening(name));
      }
    }
  }

  /** The module-level `singleMainHub` variable and its accessor. */
  class MainHubSingleton {
    var instance: MainHub?

    constructor ()
      ensures instance == null
    {
      instance := null;
    }

    /** `useMainHub()`: the first call creates an empty hub and stores it; every later
        call returns that same hub untouched. */
    method UseMainHub() returns (hub: MainHub)
      modifies this
      ensures instance == hub
      ensures old(instance) != null ==> hub == old(instance) && unchanged(hub)
      ensures old(instance) == null ==> fresh(hub) && hub.handlers == map[]
    {
      if instance != null {
        return instance;
      }
      hub := new MainHub();
      instance := hub;
    }
  }
}
