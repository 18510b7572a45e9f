/** The guard-composition engine: an ordered list of guards, each called
    with an entity instance and the acting user, that can be concatenated,
    evaluated, reduced to a boolean and bound to one instance. */
module DjangoConditions {
  import opened Outcomes

  /** A guard is called with (instance, user); it rejects only by raising. */
  type Guard<!I, !U> = (I, U) -> Effect

  /** Every guard of `gs` returns (whatever it returns) on (i, u). */
  ghost predicate AllReturn<I, U>(gs: seq<Guard<I, U>>, i: I, u: U) {
    forall j :: 0 <= j < |gs| ==> gs[j](i, u).Returned?
  }

  /** Guard `k` is the first guard of `gs` that raises on (i, u). */
  ghost predicate FirstRaiseAt<I, U>(gs: seq<Guard<I, U>>, i: I, u: U, k: int) {
    && 0 <= k < |gs|
    && gs[k](i, u).Raised?
    && forall j :: 0 <= j < k ==> gs[j](i, u).Returned?
  }

  /** No guard of `gs` raises anything but `ConditionFailed` on (i, u). */
  ghost predicate OnlyConditionFailures<I, U>(gs: seq<Guard<I, U>>, i: I, u: U) {
    forall j :: 0 <= j < |gs| && gs[j](i, u).Raised? ==> gs[j](i, u).error.ConditionFailed?
  }

  /** `gs` and `hs` raise at the same positions, the same errors, on (i, u);
      what they return may differ. */
  ghost predicate SameRaises<I, U>(gs: seq<Guard<I, U>>, hs: seq<Guard<I, U>>, i: I, u: U) {
    && |gs| == |hs|
    && forall j :: 0 <= j < |gs| ==>
         (gs[j](i, u).Raised? <==> hs[j](i, u).Raised?) &&
         (gs[j](i, u).Raised? ==> gs[j](i, u).error == hs[j](i, u).error)
  }

  /** Adds one to every index of a trace of calls. */
  function Shifted(t: seq<nat>): seq<nat>
  {
    seq(|t|, k requires 0 <= k < |t| => t[k] + 1)
  }

  /** A `Conditions` list of guards. */
  datatype Conditions<!I, !U> = Conditions(guards: seq<Guard<I, U>>) {

    /** `self + other`: a new `Conditions` holding this list's guards
        followed by those of `other`. */
    function Add(other: seq<Guard<I, U>>): (r: Conditions<I, U>)
      ensures |r.guards| == |guards| + |other|
      ensures forall k :: 0 <= k < |guards| ==> r.guards[k] == guards[k]
      ensures forall k :: 0 <= k < |other| ==> r.guards[|guards| + k] == other[k]
    {
      Conditions(guards + other)
    }

    /** The descriptor access: on the class (no instance, or a falsy one)
        the list itself; on a truthy instance, the list bound to it.
        `truthy` stands for Python's `bool(instance)`. */
    function Get(instance: Option<I>, truthy: I -> bool): (r: Access<I, U>)
      ensures r.Unbound? <==> (instance.None? || !truthy(instance.value))
      ensures r.Unbound? ==> r.conditions == this
      ensures r.Bound? ==> r.bound.conditions == this && r.bound.instance == instance.value
    {
      if instance.Some? && truthy(instance.value) then Bound(BoundConditions(this, instance.value))
      else Unbound(this)
    }

    /** `self(instance, user)`: call every guard in order, discarding what
        it returns; the first exception raised escapes and ends the loop. */
    function Call(instance: I, user: U): (r: Effect)
      ensures r.Returned? ==> r.value == NoneValue
      ensures r.Returned? <==> AllReturn(guards, instance, user)
      decreases |guards|
    {
      if guards == [] then Returned(NoneValue)
      else
        match guards[0](instance, user)
        case Returned(_) => Conditions(guards[1..]).Call(instance, user)
        case Raised(e) => Raised(e)
    }

    /** The indices of the guards `self(instance, user)` calls, in the
        order it calls them. */
    function Invocations(instance: I, user: U): (t: seq<nat>)
      ensures |t| <= |guards|
      ensures forall k :: 0 <= k < |t| ==> t[k] == k
      ensures AllReturn(guards, instance, user) ==> |t| == |guards|
      decreases |guards|
    {
      if guards == [] then []
      else
        match guards[0](instance, user)
        case Returned(_) => [0] + Shifted(Conditions(guards[1..]).Invocations(instance, user))
        case Raised(_) => [0]
    }

    /** `self.as_bool(instance, user)`: true when the call completes, false
        when it raises `ConditionFailed`; any other exception propagates. */
    function AsBool(instance: I, user: U): (r: Effect)
      ensures r == PyTrue <==> AllReturn(guards, instance, user)
      ensures r.Returned? ==> r == PyTrue || r == PyFalse
      ensures r.Raised? ==> !r.error.ConditionFailed?
    {
      match Call(instance, user)
      case Returned(_) => PyTrue
      case Raised(ConditionFailed(_)) => PyFalse
      case Raised(e) => Raised(e)
    }
  }

  /** The result of the descriptor access `Conditions.__get__`. */
  datatype Access<!I, !U> = Unbound(conditions: Conditions<I, U>) | Bound(bound: BoundConditions<I, U>)

  /** A `Conditions` list paired with one instance. Its two fields are set
      at construction and never reassigned. */
  datatype BoundConditions<!I, !U> = BoundConditions(conditions: Conditions<I, U>, instance: I) {

    /** `bound(user)`: the guards called on the stored instance. */
    function Call(user: U): (r: Effect)
      ensures r.Returned? ==> r.value == NoneValue
      ensures r.Returned? <==> AllReturn(conditions.guards, instance, user)
    {
      conditions.Call(instance, user)
    }

    /** `bound.as_bool(user)`: the boolean check on the stored instance. */
    function AsBool(user: U): (r: Effect)
      ensures r == PyTrue <==> AllReturn(conditions.guards, instance, user)
      ensures r.Returned? ==> r == PyTrue || r == PyFalse
      ensures r.Raised? ==> !r.error.ConditionFailed?
    {
      conditions.AsBool(instance, user)
    }
  }
}
