# Guard composition in django-state-manager

This project models the conditions engine of django-state-manager
(`django_conditions/conditions.py`). A `Conditions` value is an ordered list
of guards. Each guard is called with an entity instance and the acting
user. The engine can:

- concatenate two lists (`+`);
- call every guard in order (`__call__`);
- reduce that call to a boolean (`as_bool`);
- bind the list to one instance when it is read from an instance
  attribute (`__get__`, giving a `BoundConditions`).

The model is pure Dafny, in two modules plus a module of laws:

- `Outcomes` (`outcomes.dfy`): what a Python call produces, as the engine
  sees it. A call returns a `Value` or raises an `Error`. An `Error` is
  `ConditionFailed` (with an optional reason) or any `OtherError`.
- `DjangoConditions` (`conditions.dfy`): a guard is a function
  `(I, U) -> Effect` over an opaque instance type `I` and user type `U`.
  `Conditions` and `BoundConditions` are immutable datatypes whose member
  functions model the Python methods. `BoundConditions.__init__`
  (conditions.py:30-32) is the datatype constructor: it stores the list and
  the instance, and nothing reassigns them afterwards. `Call` is a recursive first-raise
  fold. `Invocations` lists the indices of the guards the loop calls, in
  call order. The reference definitions `AllReturn` and `FirstRaiseAt`
  state, guard by guard, when evaluation completes and which guard decides
  it.
- `ConditionsLaws` (`conditions_laws.dfy`): the lemmas relating these
  operations.

Two behaviours of the code are easy to misread, and the model follows the
code in both:

- A guard that returns a falsy value does not fail the check. The loop
  discards the return value (conditions.py:18-19); only raising counts.
  `FalsyReturnPasses` and `ReturnValuesIgnored` state this.
- `as_bool` catches only `ConditionFailed` (conditions.py:22-25). Any other
  exception escapes to the caller, so the check does not always reduce to
  a boolean. `AsBoolAtFirstRaise` and `OtherErrorPropagates` state this.

## Model

| member | source | states |
|---|---|---|
| `DjangoConditions.Conditions.Add` | django_conditions/conditions.py:9-10 | the result holds exactly this list's guards, in order, followed by the other list's guards, in order |
| `ConditionsLaws.AddIdentity` | django_conditions/conditions.py:9-10 | adding the empty list on either side gives back the same guards |
| `ConditionsLaws.AddAssociative` | django_conditions/conditions.py:9-10 | `(a + b) + c` and `a + (b + c)` hold the same guards |
| `DjangoConditions.Conditions.Get` | django_conditions/conditions.py:12-15 | no instance or a falsy one gives back the list itself; a truthy instance gives a bound pair of this list and that instance |
| `DjangoConditions.Conditions.Call` | django_conditions/conditions.py:17-19 | the call returns `None` exactly when every guard returns, and raises otherwise |
| `DjangoConditions.Conditions.Invocations` | django_conditions/conditions.py:17-19 | guards are called in list order starting from the first, each at most once, and all of them when all return |
| `DjangoConditions.Conditions.AsBool` | django_conditions/conditions.py:21-26 | returns `True` exactly when every guard returns; otherwise returns `False` or raises; a `ConditionFailed` never escapes it |
| `ConditionsLaws.FirstRaiseExists` | django_conditions/conditions.py:17-19 | if not every guard returns, there is a first guard that raises, so `Call` and `AsBool` are always decided |
| `ConditionsLaws.CallAtFirstRaise` | django_conditions/conditions.py:17-19 | when guard k is the first to raise, the call raises what guard k raised, and exactly guards 0..k are called, none after |
| `ConditionsLaws.AsBoolAtFirstRaise` | django_conditions/conditions.py:21-26 | when guard k is the first to raise, the check is `False` if guard k raised `ConditionFailed`, and otherwise raises guard k's exception |
| `ConditionsLaws.CallOfAdd` | django_conditions/conditions.py:9-10 | calling `a + b` raises `a`'s exception when `a` raises; otherwise it has `b`'s outcome |
| `ConditionsLaws.InvocationsOfAdd` | django_conditions/conditions.py:9-10 | calling `a + b` calls no guard of `b` when `a` raises, and otherwise calls all of `a`'s guards and then `b`'s as calling `b` alone would |
| `ConditionsLaws.AsBoolOfAdd` | django_conditions/conditions.py:21-26 | the check of `a + b` is `a`'s answer unless `a` passes, and then it is `b`'s answer |
| `ConditionsLaws.AsBoolIsBoolean` | django_conditions/conditions.py:21-26 | when guards raise nothing but `ConditionFailed`, the check returns `True` or `False` |
| `ConditionsLaws.AsBoolDistributesOverAdd` | django_conditions/conditions.py:21-26 | when guards raise nothing but `ConditionFailed`, the check of `a + b` is the check of `a` and the check of `b` |
| `ConditionsLaws.ReturnValuesIgnored` | django_conditions/conditions.py:18-19 | two lists that raise the same errors at the same positions have the same call outcome, call the same guards and give the same check, whatever the guards return |
| `ConditionsLaws.FalsyReturnPasses` | django_conditions/conditions.py:18-19 | in any list, a guard that returns a falsy value can be replaced by one returning `True` without changing the call, the guards called or the check |
| `ConditionsLaws.OtherErrorPropagates` | django_conditions/conditions.py:22-25 | an exception other than `ConditionFailed` from the first raising guard escapes both the call and the check unchanged |
| `ConditionsLaws.EmptyPasses` | django_conditions/conditions.py:17-26 | the empty list calls no guard, returns `None` and its check is `True` |
| `DjangoConditions.BoundConditions.Call` | django_conditions/conditions.py:34-35 | the bound call returns `None` exactly when every guard returns on the stored instance, and raises otherwise |
| `DjangoConditions.BoundConditions.AsBool` | django_conditions/conditions.py:37-38 | the bound check is `True` exactly when every guard returns on the stored instance; otherwise `False` or an exception other than `ConditionFailed` |
| `ConditionsLaws.BoundMatchesUnbound` | django_conditions/conditions.py:12-15 | reading the list from a truthy instance binds that list and that instance, and the bound call and check equal the unbound ones on that instance |

## Left out

- Guards are pure functions of (instance, user). Side effects a Python guard
  may have are not modelled; the order of calls is captured by
  `Invocations` instead.
- Object identity and aliasing are not modelled. `__get__` returns the same
  list object and `BoundConditions` stores a reference to it, while the model
  compares values. Since `Conditions` is a Python `list`, a caller could
  mutate it in place through that reference; the module never does, and the
  in-place list methods are not modelled.
- `list + Conditions` with a plain list on the left returns a plain Python
  list, not a `Conditions`; only `Conditions + list` (`__add__`) is modelled.
- Python truthiness of the instance in `__get__` is a parameter (`truthy`).
  A `__bool__` that raises is not modelled.
- The `cls` argument of `__get__` is unused by the source and is not a
  parameter of `Get`.
- The `ConditionFailed` class is not part of this model. It is treated as
  one exception kind with an optional reason; its subclasses are not told
  apart.
- The `User` type (`settings.AUTH_USER_MODEL`) and the instance type are
  opaque type parameters.
- The transition machinery (registry, executor, permission checks, `on_error`
  routing, protected fields) lives in the `django_conditions.fsm` module,
  which this model does not cover.
