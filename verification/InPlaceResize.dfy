/**
 Moving a pod to a new StatefulSet revision by resizing it in place: the plan, the calls in
 their order, and what an attempt cut off after any call leaves behind. Two results: mongod's
 cache never exceeds what its memory limit allows, and a pod moved this way is the pod that
 deleting and recreating it would give.
 */
module InPlaceResize {
  import opened Options
  import opened Resources

  datatype Container = Container(name: string, body: string, resources: Requirements)

  /** A pod template; `body` stands for everything outside the container lists. */
  datatype Template = Template(body: string, containers: seq<Container>, initContainers: seq<Container>)

  /** `spec` is the pod as stored, `revision` its controller-revision-hash label. */
  datatype Pod = Pod(revision: string, spec: Template)

  const NO_RESOURCES := Requirements(map[], map[])

  /** findContainer: the first container of that name. */
  function Find(containers: seq<Container>, name: string): (r: Option<nat>)
    ensures r.Some? ==> r.value < |containers| && containers[r.value].name == name
    ensures r.None? ==> forall i :: 0 <= i < |containers| ==> containers[i].name != name
    ensures forall i :: 0 <= i < |containers| && containers[i].name == name ==> r.Some? && r.value <= i
  {
    if containers == [] then None
    else if containers[0].name == name then Some(0)
    else
      var rest := Find(containers[1..], name);
      if rest.Some? then Some(rest.value + 1) else None
  }

  method FindContainer(containers: seq<Container>, name: string) returns (r: Option<nat>)
    ensures r == Find(containers, name)
  {
    for i := 0 to |containers|
      invariant forall k :: 0 <= k < i ==> containers[k].name != name
    {
      if containers[i].name == name {
        return Some(i);
      }
    }
    return None;
  }

  function Stripped(containers: seq<Container>): seq<Container> {
    seq(|containers|, i requires 0 <= i < |containers| => containers[i].(resources := NO_RESOURCES))
  }

  /** The container list with the named container's resources replaced. */
  function WithResources(containers: seq<Container>, name: string, r: Requirements): seq<Container> {
    var at := Find(containers, name);
    if at.None? then containers else containers[at.value := containers[at.value].(resources := r)]
  }

  /** The template without what onlyResourcesDiffer ignores. */
  function Erased(t: Template, name: string): Template {
    t.(containers := WithResources(t.containers, name, NO_RESOURCES), initContainers := Stripped(t.initContainers))
  }

  /** onlyResourcesDiffer. */
  predicate OnlyResourcesDiffer(a: Template, b: Template, name: string) {
    Erased(a, name) == Erased(b, name)
  }

  method EraseTemplate(t: Template, name: string) returns (erased: Template)
    ensures erased == Erased(t, name)
  {
    erased := t;
    var at := FindContainer(t.containers, name);
    if at.Some? {
      erased := erased.(containers := t.containers[at.value := t.containers[at.value].(resources := NO_RESOURCES)]);
    }
    var inits := t.initContainers;
    for i := 0 to |inits|
      invariant |inits| == |t.initContainers|
      invariant forall k :: 0 <= k < i ==> inits[k] == t.initContainers[k].(resources := NO_RESOURCES)
      invariant forall k :: i <= k < |inits| ==> inits[k] == t.initContainers[k]
    {
      inits := inits[i := inits[i].(resources := NO_RESOURCES)];
    }
    assert inits == Stripped(t.initContainers);
    erased := erased.(initContainers := inits);
  }

  method CheckOnlyResourcesDiffer(a: Template, b: Template, name: string) returns (only: bool)
    ensures only == OnlyResourcesDiffer(a, b, name)
  {
    var x := EraseTemplate(a, name);
    var y := EraseTemplate(b, name);
    return x == y;
  }

  /** The resources of the managed container, once it is known to exist. */
  function ResourcesOf(t: Template, name: string): Requirements
    requires Find(t.containers, name).Some?
  {
    t.containers[Find(t.containers, name).value].resources
  }

  lemma {:induction false} WithResourcesFind(containers: seq<Container>, name: string, r: Requirements)
    ensures Find(WithResources(containers, name, r), name) == Find(containers, name)
    ensures Find(containers, name).Some? ==>
              WithResources(containers, name, r)[Find(containers, name).value].resources == r
    ensures WithResources(WithResources(containers, name, r), name, NO_RESOURCES) ==
            WithResources(containers, name, NO_RESOURCES)
  {
    var at, updated := Find(containers, name), WithResources(containers, name, r);
    if at.Some? {
      assert forall i :: 0 <= i < |updated| ==> updated[i].name == containers[i].name;
      assert Find(updated, name).Some? && Find(updated, name).value <= at.value;
      assert containers[Find(updated, name).value].name == name;
    }
  }

  /** Two container lists that agree but for the resources of one container, if that. */
  ghost predicate SameBut(a: seq<Container>, b: seq<Container>, at: Option<nat>) {
    && |a| == |b|
    && forall i :: 0 <= i < |a| ==>
         a[i].name == b[i].name && a[i].body == b[i].body && (at != Some(i) ==> a[i].resources == b[i].resources)
  }

  /** The templates agree on everything but init-container resources and those of the first container of that name. */
  lemma OnlyResourcesExactly(a: Template, b: Template, name: string)
    ensures OnlyResourcesDiffer(a, b, name) <==>
            && a.body == b.body && SameBut(a.containers, b.containers, Find(a.containers, name))
            && |a.initContainers| == |b.initContainers|
            && forall i :: 0 <= i < |a.initContainers| ==>
                 && a.initContainers[i].name == b.initContainers[i].name
                 && a.initContainers[i].body == b.initContainers[i].body
  {
    ContainersExactly(a.containers, b.containers, name);
    StrippedExactly(a.initContainers, b.initContainers);
  }

  lemma StrippedExactly(a: seq<Container>, b: seq<Container>)
    ensures Stripped(a) == Stripped(b) <==>
            && |a| == |b|
            && forall i :: 0 <= i < |a| ==> a[i].name == b[i].name && a[i].body == b[i].body
  {
    if Stripped(a) == Stripped(b) {
      assert |Stripped(a)| == |a| && |Stripped(b)| == |b|;
      forall i | 0 <= i < |a| ensures a[i].name == b[i].name && a[i].body == b[i].body {
        assert Stripped(a)[i] == Stripped(b)[i];
      }
    }
  }

  lemma ContainersExactly(a: seq<Container>, b: seq<Container>, name: string)
    ensures WithResources(a, name, NO_RESOURCES) == WithResources(b, name, NO_RESOURCES)
            <==> SameBut(a, b, Find(a, name))
  {
    var x, y := WithResources(a, name, NO_RESOURCES), WithResources(b, name, NO_RESOURCES);
    WithResourcesFind(a, name, NO_RESOURCES);
    WithResourcesFind(b, name, NO_RESOURCES);
    if x == y {
      forall i | 0 <= i < |a|
        ensures && a[i].name == b[i].name && a[i].body == b[i].body
                && (Find(a, name) != Some(i) ==> a[i].resources == b[i].resources)
      {
        assert x[i] == y[i];
      }
    }
    if SameBut(a, b, Find(a, name)) {
      SameFind(a, b, name);
      assert forall i :: 0 <= i < |x| ==> x[i] == y[i];
    }
  }

  lemma SameFind(a: seq<Container>, b: seq<Container>, name: string)
    requires |a| == |b| && forall i :: 0 <= i < |a| ==> a[i].name == b[i].name
    ensures Find(a, name) == Find(b, name)
  {
    var x, y := Find(a, name), Find(b, name);
    if x.Some? {
      assert b[x.value].name == name;
    }
    if y.Some? {
      assert a[y.value].name == name;
    }
  }

  // ---------------------------------------------------------------- the WiredTiger cache

  const GIGABYTE := 1073741824

  const MIN_CACHE_GB := 0.25

  /** WiredTigerCacheSizeGB over exact arithmetic. */
  function CacheSizeGB(limits: ResourceList, ratio: real): real {
    CacheForBytes(Value(Amount(limits, Memory)), ratio)
  }

  function CacheForBytes(bytes: nat, ratio: real): real {
    Gigabytes(Share(bytes, ratio))
  }

  /** The share of the memory beyond the first gigabyte. */
  function Share(bytes: nat, ratio: real): real {
    ratio * ((bytes - GIGABYTE) as real)
  }

  /** A number of bytes cut to an integer, in gigabytes and no less than the minimum. */
  function Gigabytes(bytes: real): real {
    var size := bytes.Floor as real / GIGABYTE as real;
    if size < MIN_CACHE_GB then MIN_CACHE_GB else size
  }

  /** The cache is a quarter of a gigabyte, or more and then the integer number of bytes the ratio gives. */
  lemma CacheExactly(bytes: nat, ratio: real)
    ensures CacheForBytes(bytes, ratio) >= 0.25
    ensures var share := (ratio * ((bytes - 1073741824) as real)).Floor;
            if share >= 268435456 then CacheForBytes(bytes, ratio) * 1073741824.0 == share as real
            else CacheForBytes(bytes, ratio) == 0.25
  {
    var share := ratio * ((bytes - 1073741824) as real);
    assert Share(bytes, ratio) == share;
    InGigabytes(share);
  }

  lemma InGigabytes(bytes: real)
    ensures Gigabytes(bytes) >= 0.25
    ensures if bytes.Floor >= 268435456 then Gigabytes(bytes) * 1073741824.0 == bytes.Floor as real
            else Gigabytes(bytes) == 0.25
  {
    var size := bytes.Floor as real / 1073741824.0;
    assert size * 1073741824.0 == bytes.Floor as real;
    assert size < 0.25 <==> bytes.Floor as real < 268435456.0;
  }

  /** A larger memory limit never asks for a smaller cache. */
  lemma CacheIsMonotone(p: nat, q: nat, ratio: real)
    requires p <= q && ratio >= 0.0
    ensures CacheForBytes(p, ratio) <= CacheForBytes(q, ratio)
  {
    ShareMonotone(p, q, ratio);
    GigabytesMonotone(Share(p, ratio), Share(q, ratio));
  }

  lemma ShareMonotone(p: nat, q: nat, ratio: real)
    requires p <= q && ratio >= 0.0
    ensures Share(p, ratio) <= Share(q, ratio)
  {
    ScaleMonotone((p - GIGABYTE) as real, (q - GIGABYTE) as real, ratio);
  }

  lemma ScaleMonotone(x: real, y: real, ratio: real)
    requires x <= y && ratio >= 0.0
    ensures ratio * x <= ratio * y
  {
  }

  lemma GigabytesMonotone(x: real, y: real)
    requires x <= y
    ensures Gigabytes(x) <= Gigabytes(y)
  {
    FloorMonotone(x, y);
  }

  lemma FloorMonotone(x: real, y: real)
    requires x <= y
    ensures x.Floor <= y.Floor
  {
  }

  // ---------------------------------------------------------------- the plan

  datatype MemoryChange = Unchanged | Grow | Shrink

  datatype Plan = Plan(target: Requirements, memory: MemoryChange, cacheGB: real)

  /**
   What does not change during attempts: the stored revisions, the managed container, whether
   the settings and the server allow resizing in place, and the storage engine.
   */
  datatype Setup = Setup(
    revisions: map<string, Template>, container: string, allowed: bool, mongos: bool, wiredTiger: bool, ratio: real)

  function MemoryLimit(r: Requirements): nat {
    Amount(r.limits, Memory)
  }

  /** planInPlaceResize: no plan means the pod is recreated. */
  function PlanFor(e: Setup, pod: Pod, rev: string): Option<Plan> {
    if !e.allowed || e.container == "" || pod.revision !in e.revisions || rev !in e.revisions then None
    else
      var cur, upd := e.revisions[pod.revision], e.revisions[rev];
      if !OnlyResourcesDiffer(cur, upd, e.container) then None
      else if Find(cur.containers, e.container).None? || Find(upd.containers, e.container).None?
              || Find(pod.spec.containers, e.container).None? then None
      else
        var target, from := ResourcesOf(upd, e.container), ResourcesOf(cur, e.container);
        if e.mongos || MemoryLimit(from) == MemoryLimit(target) then Some(Plan(target, Unchanged, 0.0))
        else if !e.wiredTiger then None
        else
          var memory := if MemoryLimit(from) < MemoryLimit(target) then Grow else Shrink;
          Some(Plan(target, memory, CacheSizeGB(target.limits, e.ratio)))
  }

  /** A pod can be moved in place exactly when all of this holds; the plan then compares what the two revisions say. */
  lemma PlanExactly(e: Setup, pod: Pod, rev: string)
    ensures PlanFor(e, pod, rev).Some? <==>
            && e.allowed && e.container != "" && pod.revision in e.revisions && rev in e.revisions
            && OnlyResourcesDiffer(e.revisions[pod.revision], e.revisions[rev], e.container)
            && Find(pod.spec.containers, e.container).Some?
            && Find(e.revisions[pod.revision].containers, e.container).Some?
            && Find(e.revisions[rev].containers, e.container).Some?
            && (|| e.mongos || e.wiredTiger
                || MemoryLimit(ResourcesOf(e.revisions[pod.revision], e.container)) ==
                   MemoryLimit(ResourcesOf(e.revisions[rev], e.container)))
    ensures PlanFor(e, pod, rev).Some? ==>
              var plan, from := PlanFor(e, pod, rev).value, ResourcesOf(e.revisions[pod.revision], e.container);
              && plan.target == ResourcesOf(e.revisions[rev], e.container)
              && (plan.memory == Grow <==> !e.mongos && MemoryLimit(from) < MemoryLimit(plan.target))
              && (plan.memory == Shrink <==> !e.mongos && MemoryLimit(from) > MemoryLimit(plan.target))
              && (plan.memory != Unchanged ==> plan.cacheGB == CacheSizeGB(plan.target.limits, e.ratio))
  {
  }

  // ---------------------------------------------------------------- attempts, call by call

  datatype Stage = Planned | CacheLowered | Resized | Observed | CacheRaised

  datatype Attempt = NoAttempt | Attempt(rev: string, plan: Plan, stage: Stage)

  /** `applied` is what the kubelet enforces now, `cacheGB` what mongod is configured with. */
  datatype World = World(pod: Pod, applied: Requirements, cacheGB: real, attempt: Attempt)

  datatype Action =
    | Begin(rev: string)
    | LowerCache
    | PatchResources
    | SeeApplied
    | RaiseCache
    | KeepCache
    | Relabel
    | CutOff
    | KubeletApplies

  predicate At(w: World, stage: Stage) {
    w.attempt.Attempt? && w.attempt.stage == stage
  }

  predicate Enabled(e: Setup, w: World, a: Action) {
    match a
    case Begin(rev) => w.attempt.NoAttempt? && w.pod.revision != rev && PlanFor(e, w.pod, rev).Some?
    case LowerCache => At(w, Planned) && w.attempt.plan.memory == Shrink
    case PatchResources =>
      && (At(w, CacheLowered) || (At(w, Planned) && w.attempt.plan.memory != Shrink))
      && Find(w.pod.spec.containers, e.container).Some?
    case SeeApplied => At(w, Resized) && Applied(w.applied, w.attempt.plan.target)
    case RaiseCache => At(w, Observed) && w.attempt.plan.memory == Grow
    case KeepCache => At(w, Observed)
    case Relabel => At(w, CacheRaised)
    case CutOff => w.attempt.Attempt?
    case KubeletApplies => Find(w.pod.spec.containers, e.container).Some?
  }

  /** resizePod: no call when the pod already holds the target, otherwise the server stores it. */
  function Resize(spec: Template, name: string, target: Requirements): Template
    requires Find(spec.containers, name).Some?
  {
    if Applied(ResourcesOf(spec, name), target) then spec
    else spec.(containers := WithResources(spec.containers, name, Canonical(target)))
  }

  function Step(e: Setup, w: World, a: Action): World
    requires Enabled(e, w, a)
  {
    match a
    case Begin(rev) => w.(attempt := Attempt(rev, PlanFor(e, w.pod, rev).value, Planned))
    case LowerCache => w.(cacheGB := w.attempt.plan.cacheGB, attempt := w.attempt.(stage := CacheLowered))
    case PatchResources =>
      w.(pod := w.pod.(spec := Resize(w.pod.spec, e.container, w.attempt.plan.target)),
         attempt := w.attempt.(stage := Resized))
    case SeeApplied => w.(attempt := w.attempt.(stage := Observed))
    case RaiseCache => w.(cacheGB := w.attempt.plan.cacheGB, attempt := w.attempt.(stage := CacheRaised))
    case KeepCache => w.(attempt := w.attempt.(stage := CacheRaised))
    case Relabel => w.(pod := w.pod.(revision := w.attempt.rev), attempt := NoAttempt)
    case CutOff => w.(attempt := NoAttempt)
    case KubeletApplies => w.(applied := Canonical(ResourcesOf(w.pod.spec, e.container)))
  }

  ghost predicate IsRun(e: Setup, worlds: seq<World>, actions: seq<Action>) {
    && |worlds| == |actions| + 1
    && forall i :: 0 <= i < |actions| ==>
         Enabled(e, worlds[i], actions[i]) && worlds[i + 1] == Step(e, worlds[i], actions[i])
  }

  /** A pod freshly built from its revision, with a cache its limit allows. */
  ghost predicate Fresh(e: Setup, w: World) {
    && w.attempt.NoAttempt?
    && w.pod.revision in e.revisions
    && e.ratio >= 0.0
    && Find(w.pod.spec.containers, e.container).Some?
    && Matches(w.pod.spec, e.revisions[w.pod.revision], e.container)
    && Applied(w.applied, ResourcesOf(w.pod.spec, e.container))
    && w.cacheGB <= CacheSizeGB(w.applied.limits, e.ratio)
  }

  // ---------------------------------------------------------------- in-place resize refines recreation

  /** Equal up to init-container resources and the rounding of the managed container's resources. */
  predicate Matches(spec: Template, t: Template, name: string) {
    && OnlyResourcesDiffer(spec, t, name)
    && Find(spec.containers, name).Some? && Find(t.containers, name).Some?
    && Applied(ResourcesOf(spec, name), ResourcesOf(t, name))
  }

  /** The pod a recreation gives: the revision's template with the server's defaults filled in. */
  function Recreated(e: Setup, rev: string): Pod
    requires rev in e.revisions
  {
    var t := e.revisions[rev];
    if Find(t.containers, e.container).None? then Pod(rev, t)
    else
      var stored := Canonical(ResourcesOf(t, e.container));
      Pod(rev, t.(containers := WithResources(t.containers, e.container, stored)))
  }

  lemma RecreatedMatches(e: Setup, rev: string)
    requires rev in e.revisions && Find(e.revisions[rev].containers, e.container).Some?
    ensures Matches(Recreated(e, rev).spec, e.revisions[rev], e.container)
  {
    var t := e.revisions[rev];
    WithResourcesFind(t.containers, e.container, Canonical(ResourcesOf(t, e.container)));
    StoredIsApplied(ResourcesOf(t, e.container));
  }

  /** Matching the same template makes two pods interchangeable. */
  lemma MatchesIsAnEquivalence(p: Template, q: Template, t: Template, name: string)
    requires Matches(p, t, name) && Matches(q, t, name)
    ensures Matches(p, q, name) && Matches(q, p, name)
  {
    AppliedIsCanonicalEquality(ResourcesOf(p, name), ResourcesOf(t, name));
    AppliedIsCanonicalEquality(ResourcesOf(q, name), ResourcesOf(t, name));
    AppliedIsCanonicalEquality(ResourcesOf(p, name), ResourcesOf(q, name));
  }

  /** Resizing changes nothing but the managed container's resources, which become the target. */
  lemma ResizeMeaning(spec: Template, name: string, target: Requirements)
    requires Find(spec.containers, name).Some?
    ensures Find(Resize(spec, name, target).containers, name) == Find(spec.containers, name)
    ensures OnlyResourcesDiffer(Resize(spec, name, target), spec, name)
    ensures Applied(ResourcesOf(Resize(spec, name, target), name), target)
  {
    WithResourcesFind(spec.containers, name, Canonical(target));
    StoredIsApplied(target);
  }

  /** Every stage but the first two has the target in the pod's spec. */
  predicate Patched(stage: Stage) {
    stage == Resized || stage == Observed || stage == CacheRaised
  }

  ghost predicate RefinementInv(e: Setup, w: World) {
    && w.pod.revision in e.revisions
    && Find(w.pod.spec.containers, e.container).Some?
    && OnlyResourcesDiffer(w.pod.spec, e.revisions[w.pod.revision], e.container)
    && (w.attempt.Attempt? ==>
          && w.attempt.rev in e.revisions
          && PlanFor(e, w.pod, w.attempt.rev) == Some(w.attempt.plan)
          && (Patched(w.attempt.stage) ==> Applied(ResourcesOf(w.pod.spec, e.container), w.attempt.plan.target)))
  }

  lemma RefinementStep(e: Setup, w: World, a: Action)
    requires RefinementInv(e, w) && Enabled(e, w, a)
    ensures RefinementInv(e, Step(e, w, a))
    ensures a.Relabel? ==> Matches(Step(e, w, a).pod.spec, e.revisions[w.attempt.rev], e.container)
  {
    if a.PatchResources? {
      ResizeMeaning(w.pod.spec, e.container, w.attempt.plan.target);
    }
  }

  lemma {:induction false} RefinementRun(e: Setup, worlds: seq<World>, actions: seq<Action>, i: nat)
    requires IsRun(e, worlds, actions) && Fresh(e, worlds[0]) && i < |worlds|
    ensures RefinementInv(e, worlds[i])
  {
    if i == 0 {
    } else {
      RefinementRun(e, worlds, actions, i - 1);
      RefinementStep(e, worlds[i - 1], actions[i - 1]);
    }
  }

  /**
   A pod relabelled to a revision in place is the pod recreated from that revision, up to
   init-container resources and quantity rounding, after any run of attempts toward any
   revisions, each cut off anywhere.
   */
  lemma InPlaceRefinesRecreation(e: Setup, worlds: seq<World>, actions: seq<Action>, i: nat)
    requires IsRun(e, worlds, actions) && Fresh(e, worlds[0]) && i < |actions| && actions[i].Relabel?
    ensures var pod, rev := worlds[i + 1].pod, worlds[i].attempt.rev;
            && pod.revision == rev && rev in e.revisions
            && Matches(pod.spec, Recreated(e, rev).spec, e.container)
  {
    RefinementRun(e, worlds, actions, i);
    RefinementStep(e, worlds[i], actions[i]);
    var rev := worlds[i].attempt.rev;
    RecreatedMatches(e, rev);
    MatchesIsAnEquivalence(worlds[i + 1].pod.spec, Recreated(e, rev).spec, e.revisions[rev], e.container);
  }

  // ---------------------------------------------------------------- the cache stays under the limit

  function CacheOf(e: Setup, r: Requirements): real {
    CacheSizeGB(r.limits, e.ratio)
  }

  lemma AppliedSameCache(e: Setup, a: Requirements, b: Requirements)
    requires Applied(a, b)
    ensures CacheOf(e, a) == CacheOf(e, b)
  {
    AppliedSameMemory(a, b);
  }

  /** Every attempt of the run goes for the same revision. */
  predicate Toward(actions: seq<Action>, rev: string) {
    forall i :: 0 <= i < |actions| && actions[i].Begin? ==> actions[i].rev == rev
  }

  predicate OneOf(r: Requirements, from: Requirements, to: Requirements) {
    Applied(r, from) || Applied(r, to)
  }

  ghost predicate CacheInv(e: Setup, w: World, from: Requirements, to: Requirements, start: string, rev: string) {
    && RefinementInv(e, w)
    && e.ratio >= 0.0 && !e.mongos
    && start in e.revisions && Find(e.revisions[start].containers, e.container).Some?
    && ResourcesOf(e.revisions[start], e.container) == from
    && (w.pod.revision == start || (w.pod.revision == rev && w.attempt.NoAttempt?))
    && OneOf(ResourcesOf(w.pod.spec, e.container), from, to)
    && OneOf(w.applied, from, to)
    && w.cacheGB <= CacheOf(e, ResourcesOf(w.pod.spec, e.container))
    && w.cacheGB <= CacheOf(e, w.applied)
    && (w.attempt.Attempt? ==>
          && w.attempt.rev == rev && w.pod.revision == start && w.attempt.plan.target == to
          && (w.attempt.stage == CacheLowered ==> w.cacheGB <= CacheOf(e, to))
          && (w.attempt.stage == Observed ==> Applied(w.applied, to)))
  }

  /** The two sizes are ordered the way the plan says. */
  lemma PlanOrdersCaches(e: Setup, w: World, from: Requirements, to: Requirements, start: string, rev: string)
    requires CacheInv(e, w, from, to, start, rev) && w.attempt.Attempt?
    ensures w.attempt.plan.memory == Shrink ==>
              CacheOf(e, to) <= CacheOf(e, from) && w.attempt.plan.cacheGB == CacheOf(e, to)
    ensures w.attempt.plan.memory != Shrink ==> CacheOf(e, from) <= CacheOf(e, to)
    ensures w.attempt.plan.memory == Grow ==> w.attempt.plan.cacheGB == CacheOf(e, to)
  {
    var p, q := MemoryLimit(from), MemoryLimit(to);
    if p <= q {
      assert Value(p) <= Value(q);
      CacheIsMonotone(Value(p), Value(q), e.ratio);
    } else {
      assert Value(q) <= Value(p);
      CacheIsMonotone(Value(q), Value(p), e.ratio);
    }
  }

  lemma OneOfCache(e: Setup, r: Requirements, from: Requirements, to: Requirements)
    requires OneOf(r, from, to)
    ensures CacheOf(e, r) == CacheOf(e, from) || CacheOf(e, r) == CacheOf(e, to)
  {
    if Applied(r, from) {
      AppliedSameCache(e, r, from);
    } else {
      AppliedSameCache(e, r, to);
    }
  }

  lemma CacheStep(e: Setup, w: World, a: Action, from: Requirements, to: Requirements, start: string, rev: string)
    requires CacheInv(e, w, from, to, start, rev) && Enabled(e, w, a)
    requires a.Begin? ==> a.rev == rev
    requires rev in e.revisions && Find(e.revisions[rev].containers, e.container).Some?
    requires ResourcesOf(e.revisions[rev], e.container) == to
    ensures CacheInv(e, Step(e, w, a), from, to, start, rev)
  {
    var w', spec := Step(e, w, a), ResourcesOf(w.pod.spec, e.container);
    RefinementStep(e, w, a);
    OneOfCache(e, spec, from, to);
    OneOfCache(e, w.applied, from, to);
    if w.attempt.Attempt? {
      PlanOrdersCaches(e, w, from, to, start, rev);
    }
    if a.PatchResources? {
      ResizeMeaning(w.pod.spec, e.container, to);
      AppliedSameCache(e, ResourcesOf(w'.pod.spec, e.container), to);
    } else if a.RaiseCache? {
      AppliedSameCache(e, spec, to);
      AppliedSameCache(e, w.applied, to);
    } else if a.KubeletApplies? {
      StoredIsApplied(spec);
      AppliedSameCache(e, Canonical(spec), spec);
      AppliedIsCanonicalEquality(spec, from);
      AppliedIsCanonicalEquality(spec, to);
      AppliedIsCanonicalEquality(Canonical(spec), from);
      AppliedIsCanonicalEquality(Canonical(spec), to);
    }
  }

  lemma {:induction false} CacheRun(e: Setup, worlds: seq<World>, actions: seq<Action>, rev: string, i: nat)
    requires IsRun(e, worlds, actions) && Fresh(e, worlds[0]) && Toward(actions, rev) && !e.mongos && i < |worlds|
    requires rev in e.revisions && Find(e.revisions[rev].containers, e.container).Some?
    ensures var start := worlds[0].pod.revision;
            var from, to := ResourcesOf(e.revisions[start], e.container), ResourcesOf(e.revisions[rev], e.container);
            CacheInv(e, worlds[i], from, to, start, rev)
  {
    var start := worlds[0].pod.revision;
    var from, to := ResourcesOf(e.revisions[start], e.container), ResourcesOf(e.revisions[rev], e.container);
    if i == 0 {
      var w := worlds[0];
      var spec := ResourcesOf(w.pod.spec, e.container);
      AppliedSameCache(e, w.applied, spec);
      AppliedIsCanonicalEquality(w.applied, spec);
      AppliedIsCanonicalEquality(spec, from);
      AppliedIsCanonicalEquality(w.applied, from);
    } else {
      CacheRun(e, worlds, actions, rev, i - 1);
      CacheStep(e, worlds[i - 1], actions[i - 1], from, to, start, rev);
    }
  }

  /**
   For attempts toward one revision, each cut off anywhere and retried, mongod's configured cache
   never exceeds the cache formula applied to the memory limit in force, nor to the one requested.
   */
  lemma CacheNeverExceedsLimit(e: Setup, worlds: seq<World>, actions: seq<Action>, rev: string, i: nat)
    requires IsRun(e, worlds, actions) && Fresh(e, worlds[0]) && Toward(actions, rev) && !e.mongos && i < |worlds|
    ensures worlds[i].cacheGB <= CacheSizeGB(worlds[i].applied.limits, e.ratio)
    ensures Find(worlds[i].pod.spec.containers, e.container).Some?
    ensures worlds[i].cacheGB <= CacheSizeGB(ResourcesOf(worlds[i].pod.spec, e.container).limits, e.ratio)
  {
    if rev in e.revisions && Find(e.revisions[rev].containers, e.container).Some? {
      CacheRun(e, worlds, actions, rev, i);
    } else {
      NoPlanNoChange(e, worlds, actions, rev, i);
      AppliedSameCache(e, worlds[i].applied, ResourcesOf(worlds[i].pod.spec, e.container));
    }
  }

  lemma NoPlanStep(e: Setup, w: World, a: Action, rev: string)
    requires w.attempt.NoAttempt? && Enabled(e, w, a) && (a.Begin? ==> a.rev == rev)
    requires rev !in e.revisions || Find(e.revisions[rev].containers, e.container).None?
    ensures a.KubeletApplies? && Step(e, w, a) == w.(applied := Canonical(ResourcesOf(w.pod.spec, e.container)))
  {
  }

  /** A revision no plan can reach leaves the pod and its cache alone. */
  lemma {:induction false} NoPlanNoChange(e: Setup, worlds: seq<World>, actions: seq<Action>, rev: string, i: nat)
    requires IsRun(e, worlds, actions) && Fresh(e, worlds[0]) && Toward(actions, rev) && i < |worlds|
    requires rev !in e.revisions || Find(e.revisions[rev].containers, e.container).None?
    ensures worlds[i].pod == worlds[0].pod && worlds[i].cacheGB == worlds[0].cacheGB && worlds[i].attempt.NoAttempt?
    ensures Applied(worlds[i].applied, ResourcesOf(worlds[i].pod.spec, e.container))
    ensures worlds[i].cacheGB <= CacheSizeGB(worlds[i].applied.limits, e.ratio)
  {
    if i == 0 {
    } else {
      NoPlanNoChange(e, worlds, actions, rev, i - 1);
      var w := worlds[i - 1];
      var spec := ResourcesOf(w.pod.spec, e.container);
      NoPlanStep(e, w, actions[i - 1], rev);
      StoredIsApplied(spec);
      AppliedSameCache(e, w.applied, spec);
      AppliedSameCache(e, Canonical(spec), spec);
    }
  }

  // ---------------------------------------------------------------- tryInPlaceResize

  /** The calls made so far, with the state before and after each. */
  datatype Trace = Trace(worlds: seq<World>, actions: seq<Action>)

  /** The trace is a run toward `rev` that leads from `first` to `last`. */
  ghost predicate Recorded(e: Setup, t: Trace, rev: string, first: World, last: World) {
    IsRun(e, t.worlds, t.actions) && Toward(t.actions, rev) && t.worlds[0] == first && t.worlds[|t.actions|] == last
  }

  lemma Append(e: Setup, worlds: seq<World>, actions: seq<Action>, a: Action)
    returns (worlds': seq<World>, actions': seq<Action>)
    requires IsRun(e, worlds, actions) && Enabled(e, worlds[|actions|], a)
    ensures IsRun(e, worlds', actions') && actions' == actions + [a]
    ensures worlds'[0] == worlds[0] && worlds'[|actions'|] == Step(e, worlds[|actions|], a)
  {
    worlds', actions' := worlds + [Step(e, worlds[|actions|], a)], actions + [a];
    forall i | 0 <= i < |actions'|
      ensures Enabled(e, worlds'[i], actions'[i]) && worlds'[i + 1] == Step(e, worlds'[i], actions'[i])
    {
      if i < |actions| {
        assert worlds'[i] == worlds[i] && worlds'[i + 1] == worlds[i + 1] && actions'[i] == actions[i];
      }
    }
  }

  lemma Record(e: Setup, t: Trace, rev: string, first: World, last: World, a: Action) returns (t': Trace)
    requires Recorded(e, t, rev, first, last) && Enabled(e, last, a) && (a.Begin? ==> a.rev == rev)
    ensures Recorded(e, t', rev, first, Step(e, last, a)) && t'.actions == t.actions + [a]
  {
    var worlds, actions := Append(e, t.worlds, t.actions, a);
    t' := Trace(worlds, actions);
  }

  /** The last call recorded is the relabelling. */
  predicate EndsRelabelled(t: Trace) {
    |t.actions| > 0 && t.actions[|t.actions| - 1].Relabel?
  }

  datatype WaitReply = Done | GaveUp | Cancelled

  /** What the calls of one attempt come back with. */
  datatype Replies = Replies(cacheLowered: bool, patched: bool, wait: WaitReply, cacheRaised: bool, relabelled: bool)

  datatype Verdict = MovedInPlace | Recreate | Broken

  /**
   What the caller hears: only a cancelled wait and a failed relabelling are errors, and a cache
   that did not grow is neither.
   */
  function Answered(plan: Option<Plan>, r: Replies): Verdict {
    if plan.None? || (plan.value.memory == Shrink && !r.cacheLowered) || !r.patched || r.wait == GaveUp then Recreate
    else if r.wait == Cancelled || !r.relabelled then Broken
    else MovedInPlace
  }

  /** The cache changes when it shrinks before the resize or grows after one that was seen through. */
  predicate CacheSet(plan: Option<Plan>, r: Replies) {
    plan.Some? && (if plan.value.memory == Shrink then r.cacheLowered
                   else plan.value.memory == Grow && r.patched && r.wait == Done && r.cacheRaised)
  }

  /** The attempt gets as far as the wait: a plan, the cache lowered first if it has to be, and the patch accepted. */
  predicate Reaches(plan: Option<Plan>, r: Replies) {
    plan.Some? && (plan.value.memory.Shrink? ==> r.cacheLowered) && r.patched
  }

  predicate Succeeds(plan: Option<Plan>, r: Replies) {
    Reaches(plan, r) && r.wait.Done? && r.relabelled
  }

  class ManagedPod {
    var pod: Pod
    var applied: Requirements
    var cacheGB: real

    constructor (pod: Pod, applied: Requirements, cacheGB: real)
      ensures this.pod == pod && this.applied == applied && this.cacheGB == cacheGB
    {
      this.pod, this.applied, this.cacheGB := pod, applied, cacheGB;
    }

    ghost function State(attempt: Attempt): World
      reads this
    {
      World(pod, applied, cacheGB, attempt)
    }

    /** resizePod. */
    method ResizePod(e: Setup, target: Requirements)
      requires Find(pod.spec.containers, e.container).Some?
      modifies this`pod
      ensures pod == old(pod).(spec := Resize(old(pod).spec, e.container, target))
    {
      var at := FindContainer(pod.spec.containers, e.container);
      var holds := ResourcesApplied(pod.spec.containers[at.value].resources, target);
      if !holds {
        var c := pod.spec.containers[at.value];
        var containers := pod.spec.containers[at.value := c.(resources := Canonical(target))];
        pod := pod.(spec := pod.spec.(containers := containers));
      }
    }

    /**
     tryInPlaceResize: the calls it makes, whichever of them fails, form a run of the machine
     above toward `rev`; it answers MovedInPlace exactly when the last of them relabelled the pod.
     */
    method TryInPlaceResize(e: Setup, rev: string, replies: Replies) returns (verdict: Verdict, ghost t: Trace)
      requires pod.revision != rev
      modifies this
      ensures Recorded(e, t, rev, old(State(NoAttempt)), State(NoAttempt))
      ensures verdict == Answered(PlanFor(e, old(pod), rev), replies)
      ensures verdict.MovedInPlace? <==> EndsRelabelled(t)
      ensures pod.revision == if verdict.MovedInPlace? then rev else old(pod).revision
      ensures var plan := PlanFor(e, old(pod), rev);
              && cacheGB == (if CacheSet(plan, replies) then plan.value.cacheGB else old(cacheGB))
              && (plan.None? || plan.value.memory.Unchanged? ==> cacheGB == old(cacheGB))
              && (verdict.MovedInPlace? && plan.value.memory.Shrink? ==> cacheGB == plan.value.cacheGB)
              && (verdict.MovedInPlace? && plan.value.memory.Grow? ==>
                    cacheGB == if replies.cacheRaised then plan.value.cacheGB else old(cacheGB))
              && (plan.Some? && plan.value.memory.Shrink? && !replies.cacheLowered ==> pod == old(pod))
      ensures verdict.MovedInPlace? <==> Succeeds(PlanFor(e, old(pod), rev), replies)
      ensures verdict.Broken? <==>
                && Reaches(PlanFor(e, old(pod), rev), replies)
                && (replies.wait.Cancelled? || (replies.wait.Done? && !replies.relabelled))
    {
      ghost var first := State(NoAttempt);
      t := Trace([first], []);
      var plan := PlanFor(e, pod, rev);
      if plan.None? {
        return Recreate, t;
      }
      t := Record(e, t, rev, first, first, Begin(rev));
      if plan.value.memory == Shrink {
        if !replies.cacheLowered {
          t := Record(e, t, rev, first, State(Attempt(rev, plan.value, Planned)), CutOff);
          return Recreate, t;
        }
        t := Record(e, t, rev, first, State(Attempt(rev, plan.value, Planned)), LowerCache);
        cacheGB := plan.value.cacheGB;
      }
      verdict, t := PatchAndWait(e, rev, plan.value, replies, first, t);
    }

    /** resizePod and waitPodResized. */
    method PatchAndWait(e: Setup, rev: string, plan: Plan, replies: Replies, ghost first: World, ghost t0: Trace)
      returns (verdict: Verdict, ghost t: Trace)
      requires Find(pod.spec.containers, e.container).Some?
      requires plan.memory == Shrink ==> replies.cacheLowered
      requires var stage := if plan.memory == Shrink then CacheLowered else Planned;
               Recorded(e, t0, rev, first, State(Attempt(rev, plan, stage)))
      modifies this
      ensures Recorded(e, t, rev, first, State(NoAttempt))
      ensures verdict == Answered(Some(plan), replies)
      ensures verdict.MovedInPlace? <==> EndsRelabelled(t)
      ensures pod.revision == if verdict.MovedInPlace? then rev else old(pod).revision
      ensures cacheGB == if plan.memory == Grow && CacheSet(Some(plan), replies) then plan.cacheGB else old(cacheGB)
    {
      ghost var stage := if plan.memory == Shrink then CacheLowered else Planned;
      if !replies.patched {
        t := Record(e, t0, rev, first, State(Attempt(rev, plan, stage)), CutOff);
        return Recreate, t;
      }
      t := Patch(e, rev, plan, stage, first, t0);
      if replies.wait != Done {
        t := Record(e, t, rev, first, State(Attempt(rev, plan, Resized)), CutOff);
        return if replies.wait == Cancelled then Broken else Recreate, t;
      }
      verdict, t := Finish(e, rev, plan, replies, first, t);
    }

    /** The call of resizePod goes through. */
    method Patch(e: Setup, rev: string, plan: Plan, ghost stage: Stage, ghost first: World, ghost t0: Trace)
      returns (ghost t: Trace)
      requires Find(pod.spec.containers, e.container).Some?
      requires stage == if plan.memory == Shrink then CacheLowered else Planned
      requires Recorded(e, t0, rev, first, State(Attempt(rev, plan, stage)))
      modifies this`pod
      ensures Find(pod.spec.containers, e.container).Some? && pod.revision == old(pod).revision
      ensures Applied(ResourcesOf(pod.spec, e.container), plan.target)
      ensures Recorded(e, t, rev, first, State(Attempt(rev, plan, Resized)))
    {
      t := Record(e, t0, rev, first, State(Attempt(rev, plan, stage)), PatchResources);
      ResizeMeaning(pod.spec, e.container, plan.target);
      ResizePod(e, plan.target);
    }

    /** The kubelet has applied the target, the cache may grow, the label moves. */
    method Finish(e: Setup, rev: string, plan: Plan, replies: Replies, ghost first: World, ghost t0: Trace)
      returns (verdict: Verdict, ghost t: Trace)
      requires Find(pod.spec.containers, e.container).Some?
      requires Applied(ResourcesOf(pod.spec, e.container), plan.target)
      requires Recorded(e, t0, rev, first, State(Attempt(rev, plan, Resized)))
      modifies this
      ensures Recorded(e, t, rev, first, State(NoAttempt))
      ensures verdict.MovedInPlace? <==> EndsRelabelled(t)
      ensures verdict == if replies.relabelled then MovedInPlace else Broken
      ensures pod == if verdict.MovedInPlace? then old(pod).(revision := rev) else old(pod)
      ensures cacheGB == if plan.memory == Grow && replies.cacheRaised then plan.cacheGB else old(cacheGB)
    {
      var spec := ResourcesOf(pod.spec, e.container);
      StoredIsApplied(spec);
      AppliedIsCanonicalEquality(spec, plan.target);
      AppliedIsCanonicalEquality(Canonical(spec), plan.target);
      t := Record(e, t0, rev, first, State(Attempt(rev, plan, Resized)), KubeletApplies);
      applied := Canonical(spec);
      t := Record(e, t, rev, first, State(Attempt(rev, plan, Resized)), SeeApplied);
      if plan.memory == Grow && replies.cacheRaised {
        t := Record(e, t, rev, first, State(Attempt(rev, plan, Observed)), RaiseCache);
        cacheGB := plan.cacheGB;
      } else {
        t := Record(e, t, rev, first, State(Attempt(rev, plan, Observed)), KeepCache);
      }
      if !replies.relabelled {
        t := Record(e, t, rev, first, State(Attempt(rev, plan, CacheRaised)), CutOff);
        return Broken, t;
      }
      t := Record(e, t, rev, first, State(Attempt(rev, plan, CacheRaised)), Relabel);
      pod := pod.(revision := rev);
      return MovedInPlace, t;
    }
  }
}
