/** What a Python call can produce, as far as the guard-composition engine
    can observe it: a call either returns a value or raises an exception. */
module Outcomes {

  datatype Option<+T> = None | Some(value: T)

  /** A representative sample of the objects a guard may return. A Python
      guard may return any object, but the engine never looks at it, so a
      sample with falsy and truthy members is enough to state that a falsy
      return is not a failure. */
  datatype Value = NoneValue | BoolValue(b: bool) | IntValue(n: int) | StrValue(s: string)

  /** Python truthiness of a returned value. */
  predicate Truthy(v: Value) {
    match v
    case NoneValue => false
    case BoolValue(b) => b
    case IntValue(n) => n != 0
    case StrValue(s) => s != ""
  }

  /** `ConditionFailed` is the one exception the engine catches; any other
      exception a guard raises is `OtherError`. */
  datatype Error = ConditionFailed(reason: Option<string>) | OtherError(name: string)

  /** The effect of one Python call: it returned, or it raised. */
  datatype Effect = Returned(value: Value) | Raised(error: Error)

  /** `return True` and `return False` of a boolean query. */
  const PyTrue: Effect := Returned(BoolValue(true))
  const PyFalse: Effect := Returned(BoolValue(false))
}
