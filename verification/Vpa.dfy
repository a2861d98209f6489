/**
 The VPA commit: which recommendation a component adopts and when, and the resources it is then
 given. The adopted recommendation is rate-limited; the resources are a function of what the
 user declared and of the adopted recommendation, and of nothing that was applied before.
 Times are seconds, quantities thousandths, ratios exact.
 */
module Vpa {
  import opened Options
  import opened Resources

  datatype Bounds = Bounds(minAllowed: ResourceList, maxAllowed: ResourceList)

  datatype ControlledValues = RequestsOnly | RequestsAndLimits

  // ---------------------------------------------------------------- sizing

  /** One recommended value under the bounds; both comparisons look at the value as recommended. */
  function ClampOne(name: ResourceName, q: nat, b: Bounds): nat {
    if name in b.maxAllowed && q > b.maxAllowed[name] then b.maxAllowed[name]
    else if name in b.minAllowed && q < b.minAllowed[name] then b.minAllowed[name]
    else q
  }

  function Clamped(rec: ResourceList, b: Bounds): ResourceList {
    map name | name in rec :: ClampOne(name, rec[name], b)
  }

  function CapOne(name: ResourceName, q: nat, limits: ResourceList): nat {
    if name in limits && q > limits[name] then limits[name] else q
  }

  function Capped(requests: ResourceList, limits: ResourceList): ResourceList {
    map name | name in requests :: CapOne(name, requests[name], limits)
  }

  /** The new limit keeps the declared ratio; memory loses its fraction of a byte. */
  function ScaledOne(name: ResourceName, request: nat, declaredRequest: nat, declaredLimit: nat): nat
    requires declaredRequest > 0
  {
    var ratio := declaredLimit as real / declaredRequest as real;
    var scaled := (request as real * ratio).Floor;
    ScaledIsNatural(request, declaredRequest, declaredLimit);
    if name == Memory then scaled / 1000 * 1000 else scaled
  }

  lemma ScaledIsNatural(request: nat, declaredRequest: nat, declaredLimit: nat)
    requires declaredRequest > 0
    ensures (request as real * (declaredLimit as real / declaredRequest as real)).Floor >= 0
  {
    assert declaredLimit as real / declaredRequest as real >= 0.0;
    assert request as real * (declaredLimit as real / declaredRequest as real) >= 0.0;
  }

  /** Whether ratioScaledLimits touches this resource. */
  predicate Scales(declared: Requirements, requests: ResourceList, name: ResourceName) {
    name in requests && name in declared.requests && name in declared.limits && declared.requests[name] > 0
  }

  function RatioScaled(declared: Requirements, requests: ResourceList): ResourceList {
    map name | name in declared.limits ::
      if Scales(declared, requests, name)
      then ScaledOne(name, requests[name], declared.requests[name], declared.limits[name])
      else declared.limits[name]
  }

  /** commitVPAResources' arithmetic: a function of the declaration, the recommendation, the bounds and the mode. */
  function Effective(declared: Requirements, rec: ResourceList, b: Bounds, mode: ControlledValues): Requirements {
    var clamped := Clamped(rec, b);
    match mode
    case RequestsAndLimits => Requirements(declared.requests + clamped, RatioScaled(declared, clamped))
    case RequestsOnly => Requirements(declared.requests + Capped(clamped, declared.limits), declared.limits)
  }

  method ClampRecommendation(rec: ResourceList, b: Bounds) returns (result: ResourceList)
    ensures result == Clamped(rec, b)
  {
    result := rec;
    var todo := rec.Keys;
    while todo != {}
      invariant todo <= rec.Keys && result.Keys == rec.Keys
      invariant forall n :: n in todo ==> result[n] == rec[n]
      invariant forall n :: n in rec.Keys - todo ==> result[n] == ClampOne(n, rec[n], b)
      decreases |todo|
    {
      var name :| name in todo;
      todo := todo - {name};
      var val := rec[name];
      if name in b.minAllowed && val < b.minAllowed[name] {
        result := result[name := b.minAllowed[name]];
      }
      if name in b.maxAllowed && val > b.maxAllowed[name] {
        result := result[name := b.maxAllowed[name]];
      }
    }
  }

  method CapRequestsAtLimits(requests: ResourceList, limits: ResourceList) returns (result: ResourceList)
    ensures result == Capped(requests, limits)
  {
    if |limits| == 0 {
      assert requests == Capped(requests, limits);
      return requests;
    }
    result := requests;
    var todo := requests.Keys;
    while todo != {}
      invariant todo <= requests.Keys && result.Keys == requests.Keys
      invariant forall n :: n in todo ==> result[n] == requests[n]
      invariant forall n :: n in requests.Keys - todo ==> result[n] == CapOne(n, requests[n], limits)
      decreases |todo|
    {
      var name :| name in todo;
      todo := todo - {name};
      if name in limits && requests[name] > limits[name] {
        result := result[name := limits[name]];
      }
    }
  }

  method RatioScaledLimits(declared: Requirements, requests: ResourceList) returns (limits: ResourceList)
    ensures limits == RatioScaled(declared, requests)
  {
    limits := declared.limits;
    var todo := requests.Keys;
    while todo != {}
      invariant todo <= requests.Keys && limits.Keys == declared.limits.Keys
      invariant forall n :: n in limits && (n in todo || !Scales(declared, requests, n)) ==>
                  limits[n] == declared.limits[n]
      invariant forall n :: n in limits && n !in todo && Scales(declared, requests, n) ==>
                  limits[n] == ScaledOne(n, requests[n], declared.requests[n], declared.limits[n])
      decreases |todo|
    {
      var name :| name in todo;
      todo := todo - {name};
      if name !in declared.requests || name !in declared.limits || declared.requests[name] == 0 {
        continue;
      }
      limits := limits[name := ScaledOne(name, requests[name], declared.requests[name], declared.limits[name])];
    }
  }

  // ---------------------------------------------------------------- what sizing guarantees

  /** Before capping, every value lies within its bounds, wherever the bounds make sense. */
  lemma ClampedWithinBounds(rec: ResourceList, b: Bounds, name: ResourceName)
    requires name in rec
    requires name in b.minAllowed && name in b.maxAllowed ==> b.minAllowed[name] <= b.maxAllowed[name]
    ensures name in b.minAllowed ==> b.minAllowed[name] <= Clamped(rec, b)[name]
    ensures name in b.maxAllowed ==> Clamped(rec, b)[name] <= b.maxAllowed[name]
    ensures Clamped(rec, b)[name] == rec[name]
            || (name in b.minAllowed && rec[name] < b.minAllowed[name] && Clamped(rec, b)[name] == b.minAllowed[name])
            || (name in b.maxAllowed && rec[name] > b.maxAllowed[name] && Clamped(rec, b)[name] == b.maxAllowed[name])
  {
  }

  /** No request exceeds its limit. */
  predicate Admissible(r: Requirements) {
    forall name :: name in r.requests && name in r.limits ==> r.requests[name] <= r.limits[name]
  }

  /** The declaration is one Kubernetes accepts. */
  predicate ValidDeclaration(declared: Requirements) {
    Admissible(declared)
  }

  /** RequestsOnly never asks for more than the declared limits. */
  lemma RequestsOnlyAdmissible(declared: Requirements, rec: ResourceList, b: Bounds)
    requires ValidDeclaration(declared)
    ensures Admissible(Effective(declared, rec, b, RequestsOnly))
  {
  }

  /** A limit scaled by a ratio of at least one stays at or above the request it was scaled from. */
  lemma ScaledCovers(name: ResourceName, request: nat, declaredRequest: nat, declaredLimit: nat)
    requires 0 < declaredRequest <= declaredLimit
    ensures name != Memory || request % 1000 == 0 ==>
              request <= ScaledOne(name, request, declaredRequest, declaredLimit)
  {
    StretchedFloor(request, declaredRequest, declaredLimit);
    WholeThousands(request, (request as real * (declaredLimit as real / declaredRequest as real)).Floor);
  }

  lemma StretchedFloor(request: nat, declaredRequest: nat, declaredLimit: nat)
    requires 0 < declaredRequest <= declaredLimit
    ensures request <= (request as real * (declaredLimit as real / declaredRequest as real)).Floor
  {
    var ratio := declaredLimit as real / declaredRequest as real;
    RatioAtLeastOne(declaredLimit as real, declaredRequest as real);
    StretchGrows(request as real, ratio);
    FloorAtLeast(request, request as real * ratio);
  }

  lemma RatioAtLeastOne(x: real, y: real)
    requires 0.0 < y <= x
    ensures x / y >= 1.0
  {
  }

  lemma StretchGrows(x: real, ratio: real)
    requires x >= 0.0 && ratio >= 1.0
    ensures x * ratio >= x
  {
  }

  lemma FloorAtLeast(n: nat, x: real)
    requires n as real <= x
    ensures n <= x.Floor
  {
  }

  lemma WholeThousands(n: nat, m: int)
    requires n <= m
    ensures n % 1000 == 0 ==> n <= m / 1000 * 1000
  {
  }

  /**
   What the arithmetic needs of one limited resource in RequestsAndLimits mode: a limit that is not
   scaled covers the request as declared, and for memory the ratio leaves room for the next whole byte.
   */
  predicate Coverable(declared: Requirements, clamped: ResourceList, name: ResourceName) {
    name in clamped && name in declared.limits ==>
      if !Scales(declared, clamped, name) then clamped[name] <= declared.limits[name]
      else name == Memory ==>
        Value(clamped[name]) * 1000 * declared.requests[name] <= clamped[name] * declared.limits[name]
  }

  /** Scaled memory covers its request exactly when the ratio leaves room for the next whole byte. */
  lemma ScaledMemoryExactly(request: nat, declaredRequest: nat, declaredLimit: nat)
    requires declaredRequest > 0
    ensures request <= ScaledOne(Memory, request, declaredRequest, declaredLimit) <==>
              Value(request) * 1000 * declaredRequest <= request * declaredLimit
  {
    var x := request as real * (declaredLimit as real / declaredRequest as real);
    RatioAgainst(request, declaredRequest, declaredLimit, Value(request) * 1000);
    NextWhole(request, x.Floor);
  }

  /** Comparing with a scaled value is comparing cross products. */
  lemma RatioAgainst(request: nat, declaredRequest: nat, declaredLimit: nat, whole: int)
    requires declaredRequest > 0
    ensures whole <= (request as real * (declaredLimit as real / declaredRequest as real)).Floor <==>
              whole * declaredRequest <= request * declaredLimit
  {
    var x := request as real * (declaredLimit as real / declaredRequest as real);
    Stretched(request, declaredRequest, declaredLimit);
    ScaleOrder(whole as real, x, declaredRequest as real);
    ProductAsReal(whole, declaredRequest);
    assert x.Floor >= whole <==> x >= whole as real;
  }

  lemma ProductAsReal(a: int, b: int)
    ensures (a * b) as real == a as real * b as real
  {
  }

  lemma Stretched(request: nat, q: nat, l: nat)
    requires q > 0
    ensures request as real * (l as real / q as real) * q as real == (request * l) as real
  {
    assert l as real / q as real * q as real == l as real;
    assert request as real * (l as real / q as real) * q as real ==
        request as real * (l as real / q as real * q as real);
  }

  lemma ScaleOrder(x: real, y: real, k: real)
    requires k > 0.0
    ensures x <= y <==> x * k <= y * k
  {
    if x <= y {
      assert (y - x) * k >= 0.0;
    } else {
      assert (x - y) * k > 0.0;
    }
  }

  lemma NextWhole(n: nat, m: int)
    ensures n <= m / 1000 * 1000 <==> Value(n) * 1000 <= m
  {
  }

  /**
   RequestsAndLimits keeps requests under limits whenever every limited, recommended resource has
   a nonzero declared request and recommended memory is a whole number of bytes.
   */
  lemma RequestsAndLimitsAdmissible(declared: Requirements, rec: ResourceList, b: Bounds)
    requires ValidDeclaration(declared)
    requires forall name :: name in rec && name in declared.limits ==>
               name in declared.requests && declared.requests[name] > 0
    requires Memory in rec ==> Clamped(rec, b)[Memory] % 1000 == 0
    ensures Admissible(Effective(declared, rec, b, RequestsAndLimits))
  {
    var clamped := Clamped(rec, b);
    var e := Effective(declared, rec, b, RequestsAndLimits);
    forall name | name in e.requests && name in e.limits ensures e.requests[name] <= e.limits[name] {
      if name in clamped {
        ScaledCovers(name, clamped[name], declared.requests[name], declared.limits[name]);
      }
    }
  }

  /**
   Without those two conditions the exact answer is resource by resource: a limit that is not
   scaled, because nothing was requested, has to cover the new request as declared, and a scaled
   memory limit has to cover it after losing its fraction of a byte.
   */
  lemma RequestsAndLimitsExactly(declared: Requirements, rec: ResourceList, b: Bounds)
    requires ValidDeclaration(declared)
    ensures Admissible(Effective(declared, rec, b, RequestsAndLimits)) <==>
              forall name :: name in rec ==> Coverable(declared, Clamped(rec, b), name)
  {
    var clamped := Clamped(rec, b);
    var e := Effective(declared, rec, b, RequestsAndLimits);
    forall name | name in rec && name in declared.limits
      ensures e.requests[name] <= e.limits[name] <==> Coverable(declared, clamped, name)
    {
      assert e.requests[name] == clamped[name];
      if Scales(declared, clamped, name) {
        ScaledMemoryExactly(clamped[name], declared.requests[name], declared.limits[name]);
        ScaledCovers(name, clamped[name], declared.requests[name], declared.limits[name]);
      }
    }
    if Admissible(e) {
      forall name | name in rec ensures Coverable(declared, clamped, name) {
        assert name in declared.limits ==> name in e.limits && name in e.requests;
      }
    }
  }

  /** A recommended value brought under its bounds: untouched, raised to the least, or lowered to the most allowed. */
  predicate UnderBounds(q: nat, v: nat, name: ResourceName, b: Bounds) {
    var above, below := name in b.maxAllowed && q > b.maxAllowed[name], name in b.minAllowed && q < b.minAllowed[name];
    && (above ==> v == b.maxAllowed[name])
    && (below && !above ==> v == b.minAllowed[name])
    && (!above && !below ==> v == q)
  }

  /** The largest whole number of units, bytes for memory and thousandths otherwise, that keeps the declared ratio. */
  predicate KeepsRatio(name: ResourceName, limit: nat, request: nat, declaredRequest: nat, declaredLimit: nat) {
    var unit := if name == Memory then 1000 else 1;
    && limit % unit == 0
    && limit * declaredRequest <= request * declaredLimit < (limit + unit) * declaredRequest
  }

  /**
   What is applied, resource by resource. A recommended resource gets its recommendation brought
   under the bounds, in RequestsOnly mode lowered to the declared limit; any other keeps its
   declared request. Limits are the declared ones, in RequestsAndLimits mode scaled to keep the
   ratio where both the recommendation and a nonzero declared request exist.
   */
  lemma EffectiveExactly(declared: Requirements, rec: ResourceList, b: Bounds, mode: ControlledValues,
                         name: ResourceName)
    ensures var e := Effective(declared, rec, b, mode);
            && (name in e.requests <==> name in rec || name in declared.requests)
            && (name in e.limits <==> name in declared.limits)
            && (name in declared.requests && name !in rec ==> e.requests[name] == declared.requests[name])
            && (name in rec ==> SizedAs(declared, rec[name], b, mode, name, e.requests[name]))
            && (name in declared.limits ==>
                  if && mode == RequestsAndLimits && name in rec
                     && name in declared.requests && declared.requests[name] > 0
                  then KeepsRatio(name, e.limits[name], e.requests[name],
                                  declared.requests[name], declared.limits[name])
                  else e.limits[name] == declared.limits[name])
  {
    var e, clamped := Effective(declared, rec, b, mode), Clamped(rec, b);
    if name in rec {
      assert UnderBounds(rec[name], clamped[name], name, b);
      if mode == RequestsAndLimits && Scales(declared, clamped, name) {
        ScaledKeepsRatio(name, clamped[name], declared.requests[name], declared.limits[name]);
      }
    }
  }

  /** The request a recommended resource gets. */
  ghost predicate SizedAs(declared: Requirements, q: nat, b: Bounds, mode: ControlledValues,
                          name: ResourceName, v: nat)
  {
    if mode == RequestsOnly && name in declared.limits
    then exists u :: UnderBounds(q, u, name, b) && v == (if u > declared.limits[name] then declared.limits[name] else u)
    else UnderBounds(q, v, name, b)
  }

  lemma ScaledKeepsRatio(name: ResourceName, request: nat, declaredRequest: nat, declaredLimit: nat)
    requires declaredRequest > 0
    ensures KeepsRatio(name, ScaledOne(name, request, declaredRequest, declaredLimit), request,
                       declaredRequest, declaredLimit)
  {
    var scaled := (request as real * (declaredLimit as real / declaredRequest as real)).Floor;
    var limit, unit := ScaledOne(name, request, declaredRequest, declaredLimit), if name == Memory then 1000 else 1;
    CutToUnits(scaled, unit);
    assert limit == scaled / unit * unit;
    RatioAgainst(request, declaredRequest, declaredLimit, limit);
    RatioAgainst(request, declaredRequest, declaredLimit, limit + unit);
  }

  lemma CutToUnits(n: int, unit: int)
    requires unit == 1 || unit == 1000
    ensures n / unit * unit <= n < n / unit * unit + unit && n / unit * unit % unit == 0
  {
  }

  /** A limit with no declared request is left where it is, under a larger recommended request. */
  lemma UnrequestedLimitBreaksAdmission()
    ensures var declared := Requirements(map[], map[Cpu := 1000]);
            && ValidDeclaration(declared)
            && !Admissible(Effective(declared, map[Cpu := 2000], Bounds(map[], map[]), RequestsAndLimits))
  {
    var declared := Requirements(map[], map[Cpu := 1000]);
    var e := Effective(declared, map[Cpu := 2000], Bounds(map[], map[]), RequestsAndLimits);
    assert e.requests[Cpu] == 2000 && e.limits[Cpu] == 1000;
  }

  /** A byte and a half of memory is scaled to a limit of one byte. */
  lemma FractionOfAByteBreaksAdmission()
    ensures var declared := Requirements(map[Memory := 1000], map[Memory := 1000]);
            && ValidDeclaration(declared)
            && !Admissible(Effective(declared, map[Memory := 1500], Bounds(map[], map[]), RequestsAndLimits))
  {
    var declared := Requirements(map[Memory := 1000], map[Memory := 1000]);
    var e := Effective(declared, map[Memory := 1500], Bounds(map[], map[]), RequestsAndLimits);
    assert 1500 as real * (1000 as real / 1000 as real) == 1500.0;
    assert ScaledOne(Memory, 1500, 1000, 1000) == 1000;
    assert e.requests[Memory] == 1500 && e.limits[Memory] == 1000;
  }

  // ---------------------------------------------------------------- adoption

  datatype ReadResult = ReadError | NotFound | NoRecommendation | ContainerMissing | Recommendation(rec: ResourceList)

  datatype UpdateMode = Auto | Off

  /** VPAComponentStatus, without its message. */
  datatype Status = Status(
    recommended: Option<ResourceList>,
    lastObservedAt: Option<nat>,
    applied: Option<Requirements>,
    lastAppliedAt: Option<nat>)

  const EMPTY := Status(None, None, None, None)

  /** A recommendation list that may be missing counts as empty when compared. */
  function OrEmpty(l: Option<ResourceList>): ResourceList {
    if l.Some? then l.value else map[]
  }

  /** stabilizationWindowPassed. */
  predicate WindowPassed(s: Status, window: nat, now: nat) {
    window == 0 || s.lastObservedAt.None? || now >= s.lastObservedAt.value + window
  }

  /** recordVPAStatus. */
  function Recorded(s: Status, rec: ResourceList, now: nat): Status {
    if s.recommended.Some? && SameQuantities(s.recommended.value, rec) then s
    else s.(recommended := Some(rec), lastObservedAt := Some(now))
  }

  /** A component sized from a VPA object that has vanished stops the reconcile with an error. */
  predicate Stops(s: Status, read: ReadResult, mode: UpdateMode) {
    s.applied.Some? && read.NotFound? && mode == Auto
  }

  /** vpaRecommendationFor: the status it leaves and the recommendation to size from, if any. */
  function Adopt(s: Status, read: ReadResult, mode: UpdateMode, window: nat, now: nat): (Status, Option<ResourceList>) {
    if !read.Recommendation? then (s, None)
    else if mode == Off then (Recorded(s, read.rec, now), None)
    else if SameQuantities(OrEmpty(s.recommended), read.rec) then (s, s.recommended)
    else if !WindowPassed(s, window, now) then (s, s.recommended)
    else (Recorded(s, read.rec, now), Some(read.rec))
  }

  /** commitVPAResources' status write: only when something changed beyond rounding. */
  function Committed(s: Status, effective: Requirements, now: nat): Status {
    if s.applied.Some? && SameQuantities(s.applied.value.limits, effective.limits)
       && SameQuantities(s.applied.value.requests, effective.requests) then s
    else s.(applied := Some(effective), lastAppliedAt := Some(now))
  }

  /** What one reconcile of a component reads: the declaration, the settings and the two clock readings. */
  datatype Pass = Pass(
    read: ReadResult,
    declared: Requirements,
    bounds: Bounds,
    values: ControlledValues,
    mode: UpdateMode,
    window: nat,
    observedAt: nat,
    appliedAt: nat)

  /** reconcileComponentVPA. */
  function Reconciled(s: Status, p: Pass): Status {
    var (adopted, rec) := Adopt(s, p.read, p.mode, p.window, p.observedAt);
    if rec.None? then adopted else Committed(adopted, Effective(p.declared, rec.value, p.bounds, p.values), p.appliedAt)
  }

  /** Whether the pass yields a recommendation to size from. */
  function SizedFrom(s: Status, p: Pass): Option<ResourceList> {
    Adopt(s, p.read, p.mode, p.window, p.observedAt).1
  }

  /** One component's entry of the status map, as the controller updates it. */
  class Component {
    var status: Status

    constructor ()
      ensures status == EMPTY
    {
      status := EMPTY;
    }

    method RecordStatus(rec: ResourceList, now: nat)
      modifies this
      ensures status == Recorded(old(status), rec, now)
    {
      if status.recommended.Some? {
        var same := QuantitiesEqual(status.recommended.value, rec);
        if same {
          return;
        }
      }
      status := status.(recommended := Some(rec), lastObservedAt := Some(now));
    }

    method RecommendationFor(read: ReadResult, mode: UpdateMode, window: nat, now: nat)
      returns (rec: Option<ResourceList>, stopped: bool)
      modifies this
      ensures (status, rec) == Adopt(old(status), read, mode, window, now)
      ensures stopped == Stops(old(status), read, mode)
      ensures stopped <==> read.NotFound? && mode == Auto && old(status).applied.Some?
    {
      stopped := false;
      if read.ReadError? {
        return None, false;
      }
      if status.applied.Some? && read.NotFound? && mode == Auto {
        return None, true;
      }
      if !read.Recommendation? {
        return None, false;
      }
      if mode == Off {
        RecordStatus(read.rec, now);
        return None, false;
      }
      var accepted := status.recommended;
      var same := QuantitiesEqual(OrEmpty(accepted), read.rec);
      if same || !WindowPassed(status, window, now) {
        return accepted, false;
      }
      RecordStatus(read.rec, now);
      return Some(read.rec), false;
    }

    method Commit(declared: Requirements, rec: ResourceList, bounds: Bounds, values: ControlledValues, now: nat)
      modifies this
      ensures status == Committed(old(status), Effective(declared, rec, bounds, values), now)
    {
      var clamped := ClampRecommendation(rec, bounds);
      var limits := declared.limits;
      if values == RequestsAndLimits {
        limits := RatioScaledLimits(declared, clamped);
      } else {
        clamped := CapRequestsAtLimits(clamped, declared.limits);
      }
      var effective := Requirements(declared.requests + clamped, limits);
      if status.applied.Some? {
        var sameLimits := QuantitiesEqual(status.applied.value.limits, effective.limits);
        var sameRequests := QuantitiesEqual(status.applied.value.requests, effective.requests);
        if sameLimits && sameRequests {
          return;
        }
      }
      status := status.(applied := Some(effective), lastAppliedAt := Some(now));
    }

    method Reconcile(p: Pass) returns (stopped: bool)
      modifies this
      ensures status == Reconciled(old(status), p)
      ensures stopped == Stops(old(status), p.read, p.mode)
      ensures stopped ==> status == old(status) && status.applied.Some?
    {
      var rec;
      rec, stopped := RecommendationFor(p.read, p.mode, p.window, p.observedAt);
      if rec.Some? {
        Commit(p.declared, rec.value, p.bounds, p.values, p.appliedAt);
      }
    }
  }

  /** The same resources once both sides are rounded. */
  predicate SameRequirements(a: Requirements, b: Requirements) {
    SameQuantities(a.requests, b.requests) && SameQuantities(a.limits, b.limits)
  }

  /**
   After every pass that yields a recommendation, what is applied is the one function of the
   declaration, the adopted recommendation, the bounds and the mode, whatever was applied before;
   and running the same pass again changes nothing.
   */
  lemma AppliedIsAFunctionOfTheDeclaration(s: Status, p: Pass)
    requires SizedFrom(s, p).Some?
    ensures var s' := Reconciled(s, p);
            && s'.applied.Some? && s'.recommended.Some?
            && SameRequirements(s'.applied.value, Effective(p.declared, s'.recommended.value, p.bounds, p.values))
            && Reconciled(s', p) == s'
  {
    var (adopted, rec) := Adopt(s, p.read, p.mode, p.window, p.observedAt);
    var s' := Reconciled(s, p);
    assert adopted.recommended == rec && s'.recommended == adopted.recommended
        && s'.lastObservedAt == adopted.lastObservedAt;
    assert Adopt(s', p.read, p.mode, p.window, p.observedAt) == (s', rec);
  }

  /** Two components with the same adopted recommendation end up the same, however different their past. */
  lemma NothingCompounds(s: Status, t: Status, p: Pass)
    requires SizedFrom(s, p).Some? && SizedFrom(t, p).Some? && s.recommended == t.recommended
              && s.lastObservedAt == t.lastObservedAt
    ensures SameRequirements(Reconciled(s, p).applied.value, Reconciled(t, p).applied.value)
  {
    AppliedIsAFunctionOfTheDeclaration(s, p);
    AppliedIsAFunctionOfTheDeclaration(t, p);
    SizedAlike(s, t, p);
    var common := Effective(p.declared, Reconciled(s, p).recommended.value, p.bounds, p.values);
    SameTransitive(Reconciled(s, p).applied.value, Reconciled(t, p).applied.value, common);
  }

  lemma SizedAlike(s: Status, t: Status, p: Pass)
    requires s.recommended == t.recommended && s.lastObservedAt == t.lastObservedAt
    ensures Reconciled(s, p).recommended == Reconciled(t, p).recommended
  {
  }

  lemma SameTransitive(a: Requirements, b: Requirements, c: Requirements)
    requires SameRequirements(a, c) && SameRequirements(b, c)
    ensures SameRequirements(a, b)
  {
  }

  /**
   In Auto mode a recommendation that differs beyond rounding is adopted, with its time, if and only
   if the window since the last adoption has passed; a component is sized from what is then adopted.
   */
  lemma AdoptedExactly(s: Status, p: Pass)
    requires p.mode == Auto && p.read.Recommendation?
    ensures var differs := !SameQuantities(OrEmpty(s.recommended), p.read.rec);
            var passed := p.window == 0 || s.lastObservedAt.None? || p.observedAt >= s.lastObservedAt.value + p.window;
            if differs && passed
            then && Reconciled(s, p).recommended == Some(p.read.rec)
                 && Reconciled(s, p).lastObservedAt == Some(p.observedAt)
            else && Reconciled(s, p).recommended == s.recommended
                 && Reconciled(s, p).lastObservedAt == s.lastObservedAt
    ensures SizedFrom(s, p) == Reconciled(s, p).recommended
  {
  }

  /** In Off mode every recommendation that differs is recorded and none applied; without one nothing changes. */
  lemma OffOnlyRecords(s: Status, p: Pass)
    requires p.mode == Off || !p.read.Recommendation?
    ensures Reconciled(s, p).applied == s.applied && Reconciled(s, p).lastAppliedAt == s.lastAppliedAt
    ensures if p.read.Recommendation? && (s.recommended.None? || !SameQuantities(s.recommended.value, p.read.rec))
            then && Reconciled(s, p).recommended == Some(p.read.rec)
                 && Reconciled(s, p).lastObservedAt == Some(p.observedAt)
            else Reconciled(s, p) == s
  {
  }

  /** What is applied changes, with its time, if and only if it would differ beyond rounding. */
  lemma AppliedChangesExactly(s: Status, p: Pass)
    requires SizedFrom(s, p).Some?
    ensures var e := Effective(p.declared, SizedFrom(s, p).value, p.bounds, p.values);
            if s.applied.Some? && SameRequirements(s.applied.value, e)
            then Reconciled(s, p).applied == s.applied && Reconciled(s, p).lastAppliedAt == s.lastAppliedAt
            else Reconciled(s, p).applied == Some(e) && Reconciled(s, p).lastAppliedAt == Some(p.appliedAt)
  {
  }

  // ---------------------------------------------------------------- the rate limit over runs

  /** Reconciles in Auto mode with one fixed window. Only a zero window needs a clock that never runs backwards. */
  ghost predicate AutoRun(statuses: seq<Status>, passes: seq<Pass>, window: nat) {
    && |statuses| == |passes| + 1
    && (forall i :: 0 <= i < |passes| ==>
          statuses[i + 1] == Reconciled(statuses[i], passes[i]) && passes[i].mode == Auto && passes[i].window == window)
    && (window == 0 ==> forall i, j :: 0 <= i <= j < |passes| ==> passes[i].observedAt <= passes[j].observedAt)
  }

  /** Pass `i` changes the adopted recommendation. */
  predicate Adopts(statuses: seq<Status>, i: nat)
    requires i + 1 < |statuses|
  {
    statuses[i + 1].recommended != statuses[i].recommended
  }

  /** A pass that adopts waited for the window and stamps its clock reading; any other leaves the stamp alone. */
  lemma StampStep(s: Status, p: Pass)
    requires p.mode == Auto
    ensures var s' := Reconciled(s, p);
            if s'.recommended != s.recommended
            then s'.lastObservedAt == Some(p.observedAt) && WindowPassed(s, p.window, p.observedAt)
            else s'.lastObservedAt == s.lastObservedAt
  {
  }

  /** A stamp never goes back, and with a zero window and a clock that does not it is never ahead of the clock. */
  lemma StampKept(s: Status, p: Pass, since: nat)
    requires p.mode == Auto && s.lastObservedAt.Some? && since <= s.lastObservedAt.value
    requires p.window == 0 ==> s.lastObservedAt.value <= p.observedAt
    ensures var stamp := Reconciled(s, p).lastObservedAt;
            stamp.Some? && since <= stamp.value && (p.window == 0 ==> stamp.value <= p.observedAt)
  {
    StampStep(s, p);
  }

  /** From an adoption on, the stamp is there and never goes back. */
  lemma {:induction false} StampGrows(statuses: seq<Status>, passes: seq<Pass>, window: nat, i: nat, k: nat)
    requires AutoRun(statuses, passes, window) && i < k < |statuses| && Adopts(statuses, i)
    ensures statuses[i + 1].lastObservedAt == Some(passes[i].observedAt)
    ensures statuses[k].lastObservedAt.Some? && passes[i].observedAt <= statuses[k].lastObservedAt.value
    ensures window == 0 ==> statuses[k].lastObservedAt.value <= passes[k - 1].observedAt
  {
    if k == i + 1 {
      StampStep(statuses[i], passes[i]);
    } else {
      StampGrows(statuses, passes, window, i, k - 1);
      assert window == 0 ==> passes[k - 2].observedAt <= passes[k - 1].observedAt;
      assert statuses[k] == Reconciled(statuses[k - 1], passes[k - 1]);
      StampKept(statuses[k - 1], passes[k - 1], passes[i].observedAt);
    }
  }

  /** Any two changes of the adopted recommendation are at least the window apart on the recorded clock. */
  lemma AdoptionsAreAWindowApart(statuses: seq<Status>, passes: seq<Pass>, window: nat, i: nat, j: nat)
    requires AutoRun(statuses, passes, window) && i < j && j + 1 < |statuses|
    requires Adopts(statuses, i) && Adopts(statuses, j)
    ensures statuses[i + 1].lastObservedAt.Some? && statuses[j + 1].lastObservedAt.Some?
    ensures statuses[j + 1].lastObservedAt.value >= statuses[i + 1].lastObservedAt.value + window
  {
    StampGrows(statuses, passes, window, i, j);
    StampGrows(statuses, passes, window, i, j + 1);
    StampStep(statuses[j], passes[j]);
  }
}
