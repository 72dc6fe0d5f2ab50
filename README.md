# electron-ipc-browser hubs in Dafny

This project models the two in-process message hubs of electron-ipc-browser
(`src/index.ts`), each reached through a lazily created module-level singleton:

- the **main hub** (`useMainHub`), a call/response registry binding each channel
  name to exactly one handler: `on` validates and overwrites, `off` validates and
  deletes, `emit` calls the bound handler once and settles its promise as that call
  does, or rejects with a "not listen <name>" error;
- the **renderer hub** (`useRendererHub`), a publish/subscribe registry binding each
  channel name to an ordered listener array: `on` appends (duplicates kept), `off`
  deletes the channel or splices out the first occurrence of a handler, `emit` calls
  every listener in order and stops at the first that throws.

Both hubs are classes whose `map` field is the closed-over `_all` map; their methods
change it in place and state the new map in terms of the old one. The singleton
variables are classes holding a nullable reference that is set on first access and
returned unchanged afterwards.

Arguments are probed at run time in the source, so they are modelled as a `Value`
datatype (`Undefined`, `Null`, `Bool`, `Num`, `Str`, `Obj`, `Fn`) with ECMAScript
truthiness. Handlers are opaque identifiers; what a handler does when called is a
parameter `run` mapping a handler and its argument to "returned v" or "threw e", and
`emit` returns the sequence of calls it made.

The renderer hub's `off` removes a handler with `splice(indexOf(h) >>> 0, 1)`. The
model spells out ECMAScript `ToUint32` (`>>> 0`), `indexOf` and `splice` with its
clamping of the start index (module `JsArrays`), and proves that the expression
removes exactly the first occurrence of `h` and is a no-op when `h` is absent,
because `-1 >>> 0` is 2^32 - 1 and an ECMAScript array never holds more than
2^32 - 1 elements. To make that bound an invariant of the model (`RendererHub.Valid`),
`RendererHub.On` reports a `RangeError` and leaves the list alone when the list is
already at that maximum length, which is what `Array.prototype.push` does there; the
source has no branch of its own for it. `JsArrays.SpliceIndexOfPastArrayLimit` shows
the no-op would fail for a longer list.

The model follows the code where it is looser than its messages and types suggest:

- renderer `off` treats every falsy second argument (`undefined`, `null`, `0`, `""`,
  `false`) as "no handler" and deletes the whole channel; only a truthy non-function
  is rejected (src/index.ts:134-142);
- main `emit` does not validate the name: a non-string name is simply never bound,
  so the call rejects as "not listening" (src/index.ts:77-85);
- main `off` rejects a non-string name with the message "param name is not function"
  (src/index.ts:67);
- renderer `off` with a handler leaves an emptied list in place rather than deleting
  the channel (src/index.ts:143-149).

## Model

| member | source | states |
|---|---|---|
| JsValues.IsString | src/index.ts:1 | `isString` holds exactly of string values, and never of a function |
| JsValues.IsFunction | src/index.ts:2-3 | `isFunction` holds exactly of function values, and every function is truthy |
| JsValues.Truthy | src/index.ts:134-139 | ToBoolean as used by `handler && …` and `!handler`: false exactly for undefined, null, false, 0 and the empty string |
| JsArrays.ToUint32 | src/index.ts:146 | `x >>> 0` lies below 2^32, is `x` for `0 <= x < 2^32` and `x + 2^32` for `-2^32 <= x < 0`, so `-1 >>> 0` is 2^32 - 1 |
| JsArrays.IndexOf | src/index.ts:146 | `indexOf` is -1 exactly when `h` is absent; otherwise it is a position holding `h` with no earlier `h` |
| JsArrays.Splice | src/index.ts:145-148 | `splice` with a start at or past the length, or a non-positive count, leaves the array unchanged; `splice(i, 1)` inside the array removes exactly position `i` |
| JsArrays.RemoveFirstAbsent | src/index.ts:143-148 | removing the first `h` from a list that does not hold `h` leaves it unchanged |
| JsArrays.RemoveFirstAt | src/index.ts:143-148 | when `i` is the first position holding `h`, removing the first `h` drops exactly position `i` and keeps everything else in order |
| JsArrays.RemoveFirstMultiset | src/index.ts:143-148 | removal takes away one copy of `h` if present and keeps the multiplicity of every other handler |
| JsArrays.SpliceIndexOfRemovesFirst | src/index.ts:143-149 | for any array of at most 2^32 - 1 elements, `splice(indexOf(h) >>> 0, 1)` equals first-occurrence removal, and is a no-op when `h` is absent |
| JsArrays.SpliceIndexOfPastArrayLimit | src/index.ts:145-148 | for a sequence longer than 2^32 - 1 without `h`, the same expression would remove the element at 2^32 - 1: the no-op depends on the array length limit |
| JsArrays.AppendThenRemoveFirst | src/index.ts:122-148 | renderer `on(h)` then `off(h)` restores the list only when `h` was not already listed; otherwise an earlier copy is removed and the new one stays last |
| MainHubs.NotListeningMessage | src/index.ts:81-85 | the rejection message for an unbound channel ends in `not listen <name>` |
| MainHubs.Message | src/index.ts:55-85 | the message of a TypeError is its text; the message of a not-listening rejection for a string name ends in `not listen <name>` |
| MainHubs.Settle | src/index.ts:79 | a handler that returns resolves `emit`'s promise with that value; one that throws rejects it with the thrown value unchanged |
| MainHubs.MainHub.constructor | src/index.ts:45 | a new main registry is empty |
| MainHubs.MainHub.On | src/index.ts:54-64 | a non-string name or non-function handler throws the matching TypeError and leaves the registry unchanged; otherwise the name is bound to exactly that handler, replacing any earlier one, and no other binding changes |
| MainHubs.MainHub.Off | src/index.ts:65-72 | a non-string name throws a TypeError and changes nothing; otherwise the name's binding is removed, other bindings kept, and an absent name changes nothing |
| MainHubs.MainHub.Emit | src/index.ts:73-87 | with a bound handler, exactly one call of that handler with `data`, and the outcome is that call's settlement; with none (including any non-string name), no call and a rejection carrying the name, whose message for a string name ends in `not listen <name>` |
| MainHubs.MainHubSingleton.constructor | src/index.ts:36 | the singleton variable starts unset |
| MainHubs.MainHubSingleton.UseMainHub | src/index.ts:38-92 | the first access creates an empty hub and stores it; later accesses return that same hub, unchanged |
| RendererHubs.Dispatch | src/index.ts:157-159 | `forEach` over the listeners makes at most one call per listener, makes one per listener when it completes, and fails only with an error a listener threw |
| RendererHubs.DispatchOrder | src/index.ts:155-160 | a dispatch calls listeners from the front of the list, each once with the same `data`, and only moves past a listener that returned |
| RendererHubs.DispatchOutcome | src/index.ts:155-160 | a dispatch completes, having called every listener, exactly when none throws; otherwise its last call is to the first listener that throws, whose error passes to the caller unchanged |
| RendererHubs.DispatchAppend | src/index.ts:122-160 | a listener appended by `on` is called after all earlier ones, and only if none of them threw |
| RendererHubs.RendererHub.constructor | src/index.ts:102 | a new renderer registry is empty |
| RendererHubs.RendererHub.On | src/index.ts:111-127 | a non-string name or non-function handler throws the matching TypeError and changes nothing; a list already holding 2^32 - 1 entries makes `push` throw a RangeError and stays unchanged; otherwise the channel's list becomes the old list followed by the handler (`[h]` for a new channel), duplicates kept and other channels unchanged |
| RendererHubs.RendererHub.Off | src/index.ts:128-150 | a non-string name, or a truthy non-function handler, throws a TypeError and changes nothing; a falsy handler deletes the channel; a function handler removes its first occurrence only, keeping the rest in order, and changes nothing when it or the channel is absent |
| RendererHubs.RendererHub.Emit | src/index.ts:151-161 | a non-string name throws a TypeError with no calls; an absent channel makes no calls and completes; otherwise the calls and outcome are exactly those of `Dispatch` over the channel's list |
| RendererHubs.RendererHubSingleton.constructor | src/index.ts:94 | the singleton variable starts unset |
| RendererHubs.RendererHubSingleton.UseRendererHub | src/index.ts:96-165 | the first access creates an empty hub and stores it; later accesses return that same hub, unchanged |

## Left out

- Promise machinery of main `emit`: adoption of a thenable returned by a handler and
  the timing of settlement are not modelled; a handler's return value is taken as the
  resolution value.
- The compile-time helper types (`Parameter`, `FunctionPromiseMayBe`,
  `ReturnResolveType`) and the envelope types `RendererToMainData` and
  `MainToRendererData`: they have no run-time behaviour. The type parameters of the
  accessors are dropped for the same reason.
- The `replys` map of the renderer hub: it is created and never used.
- Handler side effects and re-entrant `on`/`off` called by a listener during a
  renderer `emit` over the same live array: handlers are foreign code, given only as
  the `run` parameter, which cannot touch the registry.
- Listener arrays are modelled as sequences held in the map. The array objects never
  leave the closed-over map, so no aliasing is observable; the stray property that a
  failing `push` on a full array leaves behind is not modelled.
- MainHubs.NotListeningMessage: covers string names only; the template-literal
  conversion of a non-string name to text is not modelled (the error carries the
  name value itself).
- MainHubs.Message: gives the message of TypeErrors and of not-listening rejections
  for string names only, for the same reason; a value thrown by a handler has no
  message of the hub's making.
- Numbers are integers: every number is represented by an integer of the same
  truthiness (NaN and -0 as `Num(0)`, 0.5 or Infinity as `Num(1)`), which is all any
  branch of the hubs observes of it. `Value` has no Symbol or BigInt case (a Symbol is
  truthy like `Obj`; a BigInt behaves like `Num` under ToBoolean).
