/** Laws of the guard-composition engine: how evaluation decides, how
    concatenation composes with evaluation and with the boolean check, that
    return values never matter, and that binding changes nothing. */
module ConditionsLaws {
  import opened Outcomes
  import opened DjangoConditions

  /** Either every guard returns, or there is a first guard that raises:
      evaluation is always decided by one of the two. */
  lemma {:induction false} FirstRaiseExists<I, U>(gs: seq<Guard<I, U>>, i: I, u: U)
    requires !AllReturn(gs, i, u)
    ensures exists k :: FirstRaiseAt(gs, i, u, k)
  {
    if gs[0](i, u).Raised? {
      assert FirstRaiseAt(gs, i, u, 0);
    } else {
      assert !AllReturn(gs[1..], i, u) by {
        var j :| 0 <= j < |gs| && gs[j](i, u).Raised?;
        assert gs[1..][j - 1] == gs[j];
      }
      FirstRaiseExists(gs[1..], i, u);
      var k :| FirstRaiseAt(gs[1..], i, u, k);
      assert FirstRaiseAt(gs, i, u, k + 1) by {
        forall j | 0 <= j < k + 1 ensures gs[j](i, u).Returned? {
          if j > 0 { assert gs[j] == gs[1..][j - 1]; }
        }
      }
    }
  }

  /** The first raising guard decides the call: the call raises what that
      guard raised, and the guards after it are never called. */
  lemma {:induction false} CallAtFirstRaise<I, U>(c: Conditions<I, U>, i: I, u: U, k: nat)
    requires FirstRaiseAt(c.guards, i, u, k)
    ensures c.Call(i, u) == c.guards[k](i, u)
    ensures |c.Invocations(i, u)| == k + 1
    decreases k
  {
    if k > 0 {
      var tail := Conditions(c.guards[1..]);
      assert c.guards[0](i, u).Returned?;
      assert FirstRaiseAt(tail.guards, i, u, k - 1);
      CallAtFirstRaise(tail, i, u, k - 1);
    }
  }

  /** The boolean check at the first raising guard: `False` when it raised
      `ConditionFailed`, and otherwise its exception, propagated. */
  lemma AsBoolAtFirstRaise<I, U>(c: Conditions<I, U>, i: I, u: U, k: nat)
    requires FirstRaiseAt(c.guards, i, u, k)
    ensures c.AsBool(i, u) == if c.guards[k](i, u).error.ConditionFailed? then PyFalse else c.guards[k](i, u)
  {
    CallAtFirstRaise(c, i, u, k);
  }

  /** Adding the empty list on either side gives back the same guards. */
  lemma AddIdentity<I, U>(c: Conditions<I, U>)
    ensures c.Add([]) == c
    ensures Conditions([]).Add(c.guards) == c
  {
  }

  /** `(a + b) + c` and `a + (b + c)` hold the same guards in the same order. */
  lemma AddAssociative<I, U>(a: Conditions<I, U>, b: seq<Guard<I, U>>, c: seq<Guard<I, U>>)
    ensures a.Add(b).Add(c) == a.Add(Conditions(b).Add(c).guards)
  {
  }

  /** Calling `a + b` runs `a` first, and `b` decides the outcome only
      when every guard of `a` returns. */
  lemma {:induction false} CallOfAdd<I, U>(a: seq<Guard<I, U>>, b: seq<Guard<I, U>>, i: I, u: U)
    ensures Conditions(a).Add(b).Call(i, u) ==
      if Conditions(a).Call(i, u).Raised? then Conditions(a).Call(i, u) else Conditions(b).Call(i, u)
  {
    if a == [] {
      assert a + b == b;
    } else {
      assert (a + b)[0] == a[0];
      assert (a + b)[1..] == a[1..] + b;
      if a[0](i, u).Returned? {
        CallOfAdd(a[1..], b, i, u);
      }
    }
  }

  /** Calling `a + b` calls no guard of `b` when `a` raises, and all of
      `a`'s guards before `b`'s otherwise. */
  lemma {:induction false} InvocationsOfAdd<I, U>(a: seq<Guard<I, U>>, b: seq<Guard<I, U>>, i: I, u: U)
    ensures |Conditions(a).Add(b).Invocations(i, u)| ==
      if Conditions(a).Call(i, u).Raised? then |Conditions(a).Invocations(i, u)|
      else |a| + |Conditions(b).Invocations(i, u)|
  {
    if a == [] {
      assert a + b == b;
    } else {
      assert (a + b)[0] == a[0];
      assert (a + b)[1..] == a[1..] + b;
      if a[0](i, u).Returned? {
        InvocationsOfAdd(a[1..], b, i, u);
      }
    }
  }

  /** The boolean check of `a + b`: `a`'s answer unless `a` passes, in which
      case `b`'s answer; an exception from `a` is never masked by `b`. */
  lemma AsBoolOfAdd<I, U>(a: Conditions<I, U>, b: seq<Guard<I, U>>, i: I, u: U)
    ensures a.Add(b).AsBool(i, u) == if a.AsBool(i, u) == PyTrue then Conditions(b).AsBool(i, u) else a.AsBool(i, u)
  {
    CallOfAdd(a.guards, b, i, u);
  }

  /** The boolean check of a guard list that raises nothing but
      `ConditionFailed` is a plain boolean. */
  lemma {:induction false} AsBoolIsBoolean<I, U>(c: Conditions<I, U>, i: I, u: U)
    requires OnlyConditionFailures(c.guards, i, u)
    ensures c.AsBool(i, u) == PyTrue || c.AsBool(i, u) == PyFalse
  {
    if !AllReturn(c.guards, i, u) {
      FirstRaiseExists(c.guards, i, u);
      var k :| FirstRaiseAt(c.guards, i, u, k);
      AsBoolAtFirstRaise(c, i, u, k);
    }
  }

  /** When guards only pass or raise `ConditionFailed`, the boolean check of
      `a + b` is the conjunction of the checks of `a` and of `b`. */
  lemma AsBoolDistributesOverAdd<I, U>(a: Conditions<I, U>, b: seq<Guard<I, U>>, i: I, u: U)
    requires OnlyConditionFailures(a.guards, i, u)
    requires OnlyConditionFailures(b, i, u)
    ensures a.Add(b).AsBool(i, u) == Returned(BoolValue(a.AsBool(i, u) == PyTrue && Conditions(b).AsBool(i, u) == PyTrue))
  {
    AsBoolOfAdd(a, b, i, u);
    AsBoolIsBoolean(a, i, u);
    AsBoolIsBoolean(Conditions(b), i, u);
  }

  /** What a guard returns never matters: two lists that raise the same
      errors at the same positions are called alike, call the same guards
      and give the same boolean answer. */
  lemma {:induction false} ReturnValuesIgnored<I, U>(c: Conditions<I, U>, d: Conditions<I, U>, i: I, u: U)
    requires SameRaises(c.guards, d.guards, i, u)
    ensures c.Call(i, u) == d.Call(i, u)
    ensures c.Invocations(i, u) == d.Invocations(i, u)
    ensures c.AsBool(i, u) == d.AsBool(i, u)
  {
    if AllReturn(c.guards, i, u) {
      assert AllReturn(d.guards, i, u);
    } else {
      FirstRaiseExists(c.guards, i, u);
      var k :| FirstRaiseAt(c.guards, i, u, k);
      assert FirstRaiseAt(d.guards, i, u, k);
      CallAtFirstRaise(c, i, u, k);
      CallAtFirstRaise(d, i, u, k);
    }
    var s, t := c.Invocations(i, u), d.Invocations(i, u);
    assert |s| == |t|;
    assert forall k :: 0 <= k < |s| ==> s[k] == t[k];
  }

  /** A guard that returns a falsy value counts as passing: in any list,
      replacing it by a guard that returns `True` changes neither the call,
      nor the guards called, nor the check. */
  lemma FalsyReturnPasses<I, U>(c: Conditions<I, U>, i: I, u: U, j: nat)
    requires j < |c.guards|
    requires c.guards[j](i, u).Returned? && !Truthy(c.guards[j](i, u).value)
    ensures var d := Conditions(c.guards[j := (x: I, y: U) => PyTrue]);
      && c.Call(i, u) == d.Call(i, u)
      && c.Invocations(i, u) == d.Invocations(i, u)
      && c.AsBool(i, u) == d.AsBool(i, u)
  {
    var d := Conditions(c.guards[j := (x: I, y: U) => PyTrue]);
    ReturnValuesIgnored(c, d, i, u);
  }

  /** An exception other than `ConditionFailed` raised by the first raising
      guard escapes the boolean check unchanged. */
  lemma OtherErrorPropagates<I, U>(c: Conditions<I, U>, i: I, u: U, k: nat, name: string)
    requires FirstRaiseAt(c.guards, i, u, k)
    requires c.guards[k](i, u) == Raised(OtherError(name))
    ensures c.AsBool(i, u) == Raised(OtherError(name))
    ensures c.Call(i, u) == Raised(OtherError(name))
  {
    AsBoolAtFirstRaise(c, i, u, k);
  }

  /** The empty list calls nothing, and its check is always true. */
  lemma EmptyPasses<I, U>(i: I, u: U)
    ensures var empty: Conditions<I, U> := Conditions([]);
      && empty.Call(i, u) == Returned(NoneValue)
      && empty.Invocations(i, u) == []
      && empty.AsBool(i, u) == PyTrue
  {
  }

  /** Accessed on a truthy instance, the bound list answers exactly as the
      unbound list does on that instance. */
  lemma BoundMatchesUnbound<I, U>(c: Conditions<I, U>, instance: I, truthy: I -> bool, user: U)
    requires truthy(instance)
    ensures c.Get(Some(instance), truthy) == Bound(BoundConditions(c, instance))
    ensures c.Get(Some(instance), truthy).bound.Call(user) == c.Call(instance, user)
    ensures c.Get(Some(instance), truthy).bound.AsBool(user) == c.AsBool(instance, user)
  {
  }
}
