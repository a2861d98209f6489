/**
 Container resources as the operator compares them. A quantity is a number of thousandths; the
 API server stores CPU in thousandths and every other resource rounded up to whole units.
 */
module Resources {

  datatype ResourceName = Cpu | Memory | Other(name: string)

  type ResourceList = map<ResourceName, nat>

  datatype Requirements = Requirements(requests: ResourceList, limits: ResourceList)

  /** Quantity.Value: whole units, rounded up. */
  function Value(q: nat): nat {
    (q + 999) / 1000
  }

  /** The quantity as the API server stores it. */
  function Rounded(name: ResourceName, q: nat): nat {
    if name == Cpu then q else Value(q) * 1000
  }

  function RoundedList(l: ResourceList): ResourceList {
    map name | name in l :: Rounded(name, l[name])
  }

  function RoundedRequirements(r: Requirements): Requirements {
    Requirements(RoundedList(r.requests), RoundedList(r.limits))
  }

  /** The same resources in the same amounts, once both are rounded. */
  predicate SameQuantities(a: ResourceList, b: ResourceList) {
    RoundedList(a) == RoundedList(b)
  }

  /** A limit without a request is the request too. */
  function WithDefaults(r: Requirements): Requirements {
    r.(requests := map name | name in r.requests.Keys + r.limits.Keys ::
         if name in r.requests then r.requests[name] else r.limits[name])
  }

  /** resourcesApplied. */
  predicate Applied(actual: Requirements, target: Requirements) {
    && SameQuantities(WithDefaults(actual).requests, WithDefaults(target).requests)
    && SameQuantities(actual.limits, target.limits)
  }

  /** What the API server stores for a container: defaulted and rounded. */
  function Canonical(r: Requirements): Requirements {
    RoundedRequirements(WithDefaults(r))
  }

  function Amount(l: ResourceList, name: ResourceName): nat {
    if name in l then l[name] else 0
  }

  /** Whole units, rounded up. */
  lemma ValueExactly(q: nat)
    ensures q <= Value(q) * 1000 < q + 1000
  {
  }

  /** Lists are the same when they name the same resources, CPU in equal thousandths, the rest in equal units. */
  lemma SameExactly(a: ResourceList, b: ResourceList)
    ensures SameQuantities(a, b) <==>
            && a.Keys == b.Keys
            && forall name :: name in a && name in b ==>
                 if name == Cpu then a[name] == b[name] else Value(a[name]) == Value(b[name])
  {
    var x, y := RoundedList(a), RoundedList(b);
    assert x.Keys == a.Keys && y.Keys == b.Keys;
    if SameQuantities(a, b) {
      forall name | name in a && name in b
        ensures if name == Cpu then a[name] == b[name] else Value(a[name]) == Value(b[name])
      {
        assert x[name] == y[name];
      }
    }
  }

  /** Every request stays, every limit without one becomes one, and limits are left alone. */
  lemma DefaultsExactly(r: Requirements, name: ResourceName)
    ensures WithDefaults(r).limits == r.limits
    ensures name in WithDefaults(r).requests <==> name in r.requests || name in r.limits
    ensures name in r.requests ==> WithDefaults(r).requests[name] == r.requests[name]
    ensures name in r.limits && name !in r.requests ==> WithDefaults(r).requests[name] == r.limits[name]
  {
  }

  /** A set within another of the same size is that other set. */
  lemma {:induction false} EqualSizeSubset<T>(a: set<T>, b: set<T>)
    requires a <= b && |a| == |b|
    ensures a == b
  {
    if a != b {
      var x :| x in b && x !in a;
      SubsetSize(a, b - {x});
    }
  }

  lemma {:induction false} SubsetSize<T>(a: set<T>, b: set<T>)
    requires a <= b
    ensures |a| <= |b|
  {
    if a == {} {
    } else {
      var x :| x in a;
      SubsetSize(a - {x}, b - {x});
    }
  }

  /**
   quantitiesEqual: equal lengths, then every entry of the first list looked up in the second,
   CPU compared in thousandths and the rest in whole units.
   */
  method QuantitiesEqual(a: ResourceList, b: ResourceList) returns (equal: bool)
    ensures equal == SameQuantities(a, b)
  {
    if |a| != |b| {
      assert RoundedList(a).Keys == a.Keys && RoundedList(b).Keys == b.Keys;
      assert |a.Keys| == |a| && |b.Keys| == |b|;
      return false;
    }
    var todo := a.Keys;
    while todo != {}
      invariant todo <= a.Keys
      invariant forall n :: n in a.Keys - todo ==> n in b && Rounded(n, a[n]) == Rounded(n, b[n])
      decreases |todo|
    {
      var name :| name in todo;
      todo := todo - {name};
      if name !in b {
        assert name in RoundedList(a) && name !in RoundedList(b);
        return false;
      }
      if name == Cpu {
        if a[name] != b[name] {
          assert RoundedList(a)[name] != RoundedList(b)[name];
          return false;
        }
      } else if Value(a[name]) != Value(b[name]) {
        assert RoundedList(a)[name] != RoundedList(b)[name];
        return false;
      }
    }
    assert |a.Keys| == |a| && |b.Keys| == |b|;
    EqualSizeSubset(a.Keys, b.Keys);
    return true;
  }

  /** The requests with the missing ones of `names` filled in from the limits. */
  ghost predicate Filled(r: Requirements, names: set<ResourceName>, requests: ResourceList) {
    && (forall name :: name in requests <==> name in r.requests || name in names)
    && (forall name :: name in requests ==>
          if name in r.requests then requests[name] == r.requests[name]
          else name in r.limits && requests[name] == r.limits[name])
  }

  lemma FillOne(r: Requirements, names: set<ResourceName>, requests: ResourceList, name: ResourceName)
    requires Filled(r, names, requests) && name in r.limits
    ensures Filled(r, names + {name}, if name in requests then requests else requests[name := r.limits[name]])
  {
  }

  lemma AllFilled(r: Requirements, requests: ResourceList)
    requires Filled(r, r.limits.Keys, requests)
    ensures requests == WithDefaults(r).requests
  {
    assert requests.Keys == WithDefaults(r).requests.Keys;
  }

  /** normalizeResources. */
  method NormalizeResources(r: Requirements) returns (n: Requirements)
    ensures n == WithDefaults(r)
  {
    var requests: ResourceList := r.requests;
    var todo := r.limits.Keys;
    while todo != {}
      invariant todo <= r.limits.Keys
      invariant Filled(r, r.limits.Keys - todo, requests)
      decreases |todo|
    {
      var name :| name in todo;
      FillOne(r, r.limits.Keys - todo, requests, name);
      assert r.limits.Keys - (todo - {name}) == (r.limits.Keys - todo) + {name};
      todo := todo - {name};
      if name !in requests {
        requests := requests[name := r.limits[name]];
      }
    }
    AllFilled(r, requests);
    n := r.(requests := requests);
  }

  method ResourcesApplied(actual: Requirements, target: Requirements) returns (applied: bool)
    ensures applied == Applied(actual, target)
  {
    var a := NormalizeResources(actual);
    var t := NormalizeResources(target);
    var requests := QuantitiesEqual(a.requests, t.requests);
    if !requests {
      return false;
    }
    applied := QuantitiesEqual(a.limits, t.limits);
  }

  /** Defaulting requests and rounding up may be done in either order. */
  lemma DefaultsCommuteWithRounding(r: Requirements)
    ensures WithDefaults(RoundedRequirements(r)) == RoundedRequirements(WithDefaults(r))
  {
    var a, b := WithDefaults(RoundedRequirements(r)), RoundedRequirements(WithDefaults(r));
    assert a.requests.Keys == b.requests.Keys;
  }

  /** resourcesApplied compares what the API server would store, so it is an equivalence. */
  lemma AppliedIsCanonicalEquality(a: Requirements, b: Requirements)
    ensures Applied(a, b) <==> Canonical(a) == Canonical(b)
  {
  }

  lemma RoundedTwice(l: ResourceList)
    ensures RoundedList(RoundedList(l)) == RoundedList(l)
  {
    forall name | name in l ensures Rounded(name, Rounded(name, l[name])) == Rounded(name, l[name]) {
      var v := Value(l[name]);
      assert Value(v * 1000) == v;
    }
  }

  /** What the API server stores for a target counts as the target. */
  lemma StoredIsApplied(r: Requirements)
    ensures Applied(Canonical(r), r)
    ensures Canonical(Canonical(r)) == Canonical(r)
  {
    var d := WithDefaults(r);
    DefaultsCommuteWithRounding(d);
    assert WithDefaults(d) == d;
    RoundedTwice(d.requests);
    RoundedTwice(d.limits);
  }

  /** Lists that agree after rounding hold the same whole number of units of memory. */
  lemma AppliedSameMemory(a: Requirements, b: Requirements)
    requires Applied(a, b)
    ensures Value(Amount(a.limits, Memory)) == Value(Amount(b.limits, Memory))
  {
    var x, y := RoundedList(a.limits), RoundedList(b.limits);
    assert Memory in x <==> Memory in a.limits;
    assert Memory in y <==> Memory in b.limits;
    if Memory in a.limits {
      assert x[Memory] == y[Memory];
    }
  }
}
