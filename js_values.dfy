/** JavaScript values as the hubs see them when they probe their arguments at
    run time, the outcome of calling a foreign handler, and the errors the
    hubs raise or pass through. */
module JsValues {

  /** A handler is identified by its reference; `===` on functions is equality of ids. */
  type HandlerId = nat

  /** The run-time kinds of value the hubs can be handed. Numbers are integers
      here (NaN and fractions play no part in any branch of the hubs). */
  datatype Value =
    | Undefined
    | Null
    | Bool(b: bool)
    | Num(n: int)
    | Str(s: string)
    | Obj(ref: nat)
    | Fn(id: HandlerId)

  /** `typeof v === "string"`: holds exactly of string values, which are never functions. */
  predicate IsString(v: Value): (b: bool)
    ensures b <==> exists s: string :: v == Str(s)
    ensures b ==> !IsFunction(v)
  {
    v.Str?
  }

  /** `typeof v === "function"`: holds exactly of function values, which are always
      truthy (so the main hub's `if (handler)` never fails for a bound handler). */
  predicate IsFunction(v: Value): (b: bool)
    ensures b <==> exists id: HandlerId :: v == Fn(id)
    ensures b ==> Truthy(v)
  {
    v.Fn?
  }

  /** ECMAScript ToBoolean: what `if (v)` and `!v` test. The falsy values are exactly
      `undefined`, `null`, `false`, `0` and the empty string. */
  predicate Truthy(v: Value): (b: bool)
    ensures !b <==> v in {Undefined, Null, Bool(false), Num(0), Str("")}
  {
    match v
    case Undefined => false
    case Null => false
    case Bool(b) => b
    case Num(n) => n != 0
    case Str(s) => s != ""
    case Obj(_) => true
    case Fn(_) => true
  }

  /** What a foreign handler does when it is invoked: it returns a value or throws one. */
  datatype Response = Returned(value: Value) | Threw(thrown: Value)

  /** One invocation of a handler, with the argument it received. */
  datatype Call = Call(handler: HandlerId, arg: Value)

  /** Errors seen by a hub's caller. */
  datatype Error =
    | TypeError(message: string)      // argument validation
    | RangeError                      // an array already at its maximum length was pushed to
    | NotListening(name: Value)       // main hub: no handler bound to the channel
    | Thrown(value: Value)            // a handler threw; passed through unchanged

  /** Result of a registry mutation: completes, or throws. */
  datatype Status = Done | Failed(error: Error)
}
