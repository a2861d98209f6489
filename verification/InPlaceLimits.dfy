/**
 When resizing in place keeps mongod's cache within its memory limit, exactly: the condition on one
 attempt, cut off anywhere, and two runs in which an attempt that was cut off makes the next one,
 toward another revision, break the bound.
 */
module InPlaceLimits {
  import opened Options
  import opened Resources
  import opened InPlaceResize

  /** The cache is within what the limit in force and the limit in the spec allow. */
  ghost predicate Bounded(e: Setup, w: World) {
    && Find(w.pod.spec.containers, e.container).Some?
    && w.cacheGB <= CacheOf(e, w.applied) && w.cacheGB <= SpecCache(e, w)
  }

  function SpecCache(e: Setup, w: World): real
    requires Find(w.pod.spec.containers, e.container).Some?
  {
    CacheOf(e, ResourcesOf(w.pod.spec, e.container))
  }

  /**
   The attempt can break the bound: lowering the cache would raise it above a limit, or the new
   limit is too small for the cache the attempt leaves alone.
   */
  predicate Breaks(e: Setup, w: World, plan: Plan)
    requires Find(w.pod.spec.containers, e.container).Some?
  {
    var target := CacheOf(e, plan.target);
    if plan.memory == Shrink then target > SpecCache(e, w) || target > CacheOf(e, w.applied)
    else w.cacheGB > target
  }

  /** A run of one attempt from `w` toward `rev`, cut off or not, the kubelet acting at any point. */
  ghost predicate OneAttempt(e: Setup, worlds: seq<World>, actions: seq<Action>, w: World, rev: string) {
    && IsRun(e, worlds, actions) && |actions| > 0 && worlds[0] == w && actions[0] == Begin(rev)
    && forall i :: 1 <= i < |actions| ==> !actions[i].Begin?
  }

  /** A pod between attempts, within its bounds, that a plan exists for. */
  ghost predicate Resting(e: Setup, w: World, rev: string) {
    w.attempt.NoAttempt? && Bounded(e, w) && w.pod.revision != rev && PlanFor(e, w.pod, rev).Some?
  }

  // ---------------------------------------------------------------- attempts that keep the bound

  /** Where an attempt that began at `w0` may be: what the cache, the spec and the kubelet are at. */
  ghost predicate Underway(e: Setup, w0: World, plan: Plan, w: World)
    requires Find(w0.pod.spec.containers, e.container).Some?
  {
    var target, before := CacheOf(e, plan.target), SpecCache(e, w0);
    && Find(w.pod.spec.containers, e.container).Some?
    && (w.attempt.Attempt? ==> w.attempt.plan == plan)
    && (SpecCache(e, w) == before || SpecCache(e, w) == target)
    && (CacheOf(e, w.applied) == CacheOf(e, w0.applied) || CacheOf(e, w.applied) == before
        || CacheOf(e, w.applied) == target)
    && (w.attempt.Attempt? && Patched(w.attempt.stage) ==> SpecCache(e, w) == target)
    && (At(w, Observed) ==> CacheOf(e, w.applied) == target)
    && if plan.memory == Shrink then w.cacheGB == target || NotLowered(e, w0, plan, w)
       else w.cacheGB == w0.cacheGB || Raised(e, plan, w)
  }

  ghost predicate NotLowered(e: Setup, w0: World, plan: Plan, w: World)
    requires Find(w0.pod.spec.containers, e.container).Some? && Find(w.pod.spec.containers, e.container).Some?
  {
    && w.cacheGB == w0.cacheGB && SpecCache(e, w) == SpecCache(e, w0)
    && (CacheOf(e, w.applied) == CacheOf(e, w0.applied) || CacheOf(e, w.applied) == SpecCache(e, w0))
    && (w.attempt.Attempt? ==> w.attempt.stage == Planned)
  }

  ghost predicate Raised(e: Setup, plan: Plan, w: World)
    requires Find(w.pod.spec.containers, e.container).Some?
  {
    var target := CacheOf(e, plan.target);
    && w.cacheGB == target && SpecCache(e, w) == target && CacheOf(e, w.applied) == target
    && (w.attempt.Attempt? ==> w.attempt.stage == CacheRaised)
  }

  lemma UnderwayIsBounded(e: Setup, w0: World, plan: Plan, w: World)
    requires Bounded(e, w0) && !Breaks(e, w0, plan) && Underway(e, w0, plan, w)
    ensures Bounded(e, w)
  {
  }

  ghost predicate PlanOf(e: Setup, plan: Plan) {
    plan.memory != Unchanged ==> plan.cacheGB == CacheOf(e, plan.target)
  }

  lemma PlansCarryTheirCache(e: Setup, pod: Pod, rev: string)
    requires PlanFor(e, pod, rev).Some?
    ensures PlanOf(e, PlanFor(e, pod, rev).value)
  {
  }

  lemma PatchedCache(e: Setup, w: World)
    requires Enabled(e, w, PatchResources)
    ensures Find(Step(e, w, PatchResources).pod.spec.containers, e.container).Some?
    ensures SpecCache(e, Step(e, w, PatchResources)) == CacheOf(e, w.attempt.plan.target)
  {
    ResizeMeaning(w.pod.spec, e.container, w.attempt.plan.target);
    AppliedSameCache(e, ResourcesOf(Step(e, w, PatchResources).pod.spec, e.container), w.attempt.plan.target);
  }

  lemma KubeletCache(e: Setup, w: World)
    requires Enabled(e, w, KubeletApplies)
    ensures CacheOf(e, Step(e, w, KubeletApplies).applied) == SpecCache(e, w)
  {
    StoredIsApplied(ResourcesOf(w.pod.spec, e.container));
    AppliedSameCache(e, Step(e, w, KubeletApplies).applied, ResourcesOf(w.pod.spec, e.container));
  }

  lemma UnderwayStep(e: Setup, w0: World, plan: Plan, w: World, a: Action)
    requires Find(w0.pod.spec.containers, e.container).Some? && PlanOf(e, plan)
    requires Underway(e, w0, plan, w) && Enabled(e, w, a) && !a.Begin?
    ensures Underway(e, w0, plan, Step(e, w, a))
  {
    if a.PatchResources? {
      PatchedCache(e, w);
    } else if a.KubeletApplies? {
      KubeletCache(e, w);
    } else if a.SeeApplied? {
      AppliedSameCache(e, w.applied, plan.target);
    }
  }

  lemma {:induction false} UnderwayRun(
    e: Setup, worlds: seq<World>, actions: seq<Action>, w: World, rev: string, i: nat)
    requires OneAttempt(e, worlds, actions, w, rev) && Resting(e, w, rev) && 1 <= i < |worlds|
    ensures Underway(e, w, PlanFor(e, w.pod, rev).value, worlds[i])
  {
    if i == 1 {
    } else {
      UnderwayRun(e, worlds, actions, w, rev, i - 1);
      PlansCarryTheirCache(e, w.pod, rev);
      UnderwayStep(e, w, PlanFor(e, w.pod, rev).value, worlds[i - 1], actions[i - 1]);
    }
  }

  // ---------------------------------------------------------------- attempts that break it

  /** The cache exceeds what the limit in force allows. */
  ghost predicate OverLimit(e: Setup, w: World) {
    w.cacheGB > CacheOf(e, w.applied)
  }

  /** Lowering the cache, if need be after the kubelet has caught up with the spec. */
  lemma BreakingShrink(e: Setup, w: World, rev: string) returns (worlds: seq<World>, actions: seq<Action>)
    requires Resting(e, w, rev) && Breaks(e, w, PlanFor(e, w.pod, rev).value)
    requires PlanFor(e, w.pod, rev).value.memory == Shrink
    ensures OneAttempt(e, worlds, actions, w, rev) && OverLimit(e, worlds[|actions|])
  {
    var w1 := Step(e, w, Begin(rev));
    PlansCarryTheirCache(e, w.pod, rev);
    if CacheOf(e, PlanFor(e, w.pod, rev).value.target) > CacheOf(e, w.applied) {
      worlds, actions := [w, w1, Step(e, w1, LowerCache)], [Begin(rev), LowerCache];
    } else {
      KubeletCache(e, w1);
      worlds, actions := ThreeSteps(e, w, rev, KubeletApplies, LowerCache);
    }
  }

  lemma ThreeSteps(e: Setup, w: World, rev: string, a: Action, b: Action)
    returns (worlds: seq<World>, actions: seq<Action>)
    requires Enabled(e, w, Begin(rev)) && !a.Begin? && !b.Begin?
    requires Enabled(e, Step(e, w, Begin(rev)), a) && Enabled(e, Step(e, Step(e, w, Begin(rev)), a), b)
    ensures OneAttempt(e, worlds, actions, w, rev)
    ensures worlds[|actions|] == Step(e, Step(e, Step(e, w, Begin(rev)), a), b)
  {
    var w1 := Step(e, w, Begin(rev));
    var w2 := Step(e, w1, a);
    worlds, actions := [w, w1, w2, Step(e, w2, b)], [Begin(rev), a, b];
  }

  /** Bringing the limit down under the cache. */
  lemma BreakingPatch(e: Setup, w: World, rev: string) returns (worlds: seq<World>, actions: seq<Action>)
    requires Resting(e, w, rev) && Breaks(e, w, PlanFor(e, w.pod, rev).value)
    requires PlanFor(e, w.pod, rev).value.memory != Shrink
    ensures OneAttempt(e, worlds, actions, w, rev) && OverLimit(e, worlds[|actions|])
  {
    var w1 := Step(e, w, Begin(rev));
    var w2 := Step(e, w1, PatchResources);
    PatchedCache(e, w1);
    KubeletCache(e, w2);
    worlds, actions := ThreeSteps(e, w, rev, PatchResources, KubeletApplies);
  }

  lemma BreakingRun(e: Setup, w: World, rev: string) returns (worlds: seq<World>, actions: seq<Action>)
    requires Resting(e, w, rev) && Breaks(e, w, PlanFor(e, w.pod, rev).value)
    ensures OneAttempt(e, worlds, actions, w, rev) && OverLimit(e, worlds[|actions|])
  {
    if PlanFor(e, w.pod, rev).value.memory == Shrink {
      worlds, actions := BreakingShrink(e, w, rev);
    } else {
      worlds, actions := BreakingPatch(e, w, rev);
    }
  }

  /**
   From any pod between attempts and within its bounds, some run of one attempt, cut off anywhere,
   takes the cache over the limit in force if and only if its plan lowers the cache to more than a
   limit in force or in the spec allows, or leaves alone a cache too large for its target.
   */
  lemma AttemptBreaksExactly(e: Setup, w: World, rev: string)
    requires Resting(e, w, rev)
    ensures (exists worlds, actions ::
               OneAttempt(e, worlds, actions, w, rev) && OverLimit(e, worlds[|actions|])) <==>
            Breaks(e, w, PlanFor(e, w.pod, rev).value)
  {
    var plan := PlanFor(e, w.pod, rev).value;
    if Breaks(e, w, plan) {
      var worlds, actions := BreakingRun(e, w, rev);
    } else {
      forall worlds, actions | OneAttempt(e, worlds, actions, w, rev) ensures !OverLimit(e, worlds[|actions|]) {
        UnderwayRun(e, worlds, actions, w, rev, |actions|);
        UnderwayIsBounded(e, w, plan, worlds[|actions|]);
      }
    }
  }

  // ---------------------------------------------------------------- runs of many attempts

  /** No attempt of the run begins where it could break the bound. */
  ghost predicate NoneBreaks(e: Setup, worlds: seq<World>, actions: seq<Action>)
    requires |worlds| == |actions| + 1
  {
    forall i :: 0 <= i < |actions| && actions[i].Begin? ==> BeginsSafely(e, worlds[i], actions[i].rev)
  }

  ghost predicate BeginsSafely(e: Setup, w: World, rev: string) {
    && PlanFor(e, w.pod, rev).Some? && Find(w.pod.spec.containers, e.container).Some?
    && !Breaks(e, w, PlanFor(e, w.pod, rev).value)
  }

  /** The attempt under way began at `w0`, within bounds, and cannot break them. */
  ghost predicate Began(e: Setup, w0: World, plan: Plan, w: World) {
    Bounded(e, w0) && PlanOf(e, plan) && !Breaks(e, w0, plan) && Underway(e, w0, plan, w)
  }

  ghost predicate Safe(e: Setup, w: World) {
    Bounded(e, w) && (w.attempt.Attempt? ==> exists w0, plan :: Began(e, w0, plan, w))
  }

  lemma SafeStep(e: Setup, w: World, a: Action)
    requires Safe(e, w) && Enabled(e, w, a) && (a.Begin? ==> BeginsSafely(e, w, a.rev))
    ensures Safe(e, Step(e, w, a))
  {
    var w' := Step(e, w, a);
    if a.Begin? {
      PlansCarryTheirCache(e, w.pod, a.rev);
      assert Began(e, w, w'.attempt.plan, w');
    } else if w.attempt.NoAttempt? {
      KubeletCache(e, w);
    } else {
      var w0, plan :| Began(e, w0, plan, w);
      UnderwayStep(e, w0, plan, w, a);
      UnderwayIsBounded(e, w0, plan, w');
      assert Began(e, w0, plan, w');
    }
  }

  /** Whatever the revisions, a run none of whose attempts begins where it could break the bound keeps it. */
  lemma {:induction false} SafeAttemptsKeepBound(e: Setup, worlds: seq<World>, actions: seq<Action>, i: nat)
    requires IsRun(e, worlds, actions) && i < |worlds| && NoneBreaks(e, worlds, actions)
    requires worlds[0].attempt.NoAttempt? && Bounded(e, worlds[0])
    ensures Safe(e, worlds[i])
  {
    if i == 0 {
    } else {
      SafeAttemptsKeepBound(e, worlds, actions, i - 1);
      SafeStep(e, worlds[i - 1], actions[i - 1]);
    }
  }

  // ---------------------------------------------------------------- two runs with a changed target

  function Memories(n: nat): Requirements {
    Requirements(map[], map[Memory := n * GIGABYTE * 1000])
  }

  function OneContainer(r: Requirements): Template {
    Template("", [Container("mongod", "", r)], [])
  }

  /** Three revisions of one mongod pod that differ in the memory limit only. */
  const THREE_SIZES := Setup(
    map["r2" := OneContainer(Memories(2)), "r3" := OneContainer(Memories(3)), "r4" := OneContainer(Memories(4))],
    "mongod", true, false, true, 0.5)

  /** The cache `n` gigabytes of memory ask for. */
  function Half(n: nat): real {
    (n - 1) as real * 0.5
  }

  predicate Revision(rev: string, n: nat) {
    (rev == "r2" && n == 2) || (rev == "r3" && n == 3) || (rev == "r4" && n == 4)
  }

  lemma CacheSizes(n: nat)
    requires 2 <= n
    ensures CacheSizeGB(Memories(n).limits, 0.5) == Half(n)
    ensures Canonical(Memories(n)).limits == Memories(n).limits
  {
    assert Value(n * GIGABYTE * 1000) == n * GIGABYTE;
    HalfGigabytes(n - 1);
  }

  lemma HalfGigabytes(k: nat)
    requires 1 <= k
    ensures Gigabytes(0.5 * ((k * GIGABYTE) as real)) == k as real * 0.5
  {
    assert 0.5 * ((k * GIGABYTE) as real) == (k * 536870912) as real;
    assert ((k * 536870912) as real).Floor == k * 536870912;
    assert (k * 536870912) as real / GIGABYTE as real == k as real * 0.5;
  }

  /** A pod labelled `mark` and stored with `n` gigabytes. */
  function Sized(mark: string, n: nat): Pod {
    Pod(mark, OneContainer(Canonical(Memories(n))))
  }

  /** The plan compares the target with what the label says, whatever the pod holds. */
  lemma SizedPlan(mark: string, from: nat, held: nat, rev: string, to: nat)
    requires Revision(mark, from) && Revision(rev, to) && from != to
    ensures PlanFor(THREE_SIZES, Sized(mark, held), rev) ==
            Some(Plan(Memories(to), if from < to then Grow else Shrink, Half(to)))
  {
    CacheSizes(to);
    var cur, upd, pod := OneContainer(Memories(from)), OneContainer(Memories(to)), Sized(mark, held);
    assert Find(cur.containers, "mongod") == Some(0) && Find(upd.containers, "mongod") == Some(0);
    assert Find(pod.spec.containers, "mongod") == Some(0);
    assert Erased(cur, "mongod").containers == Erased(upd, "mongod").containers;
    assert OnlyResourcesDiffer(cur, upd, "mongod");
  }

  lemma SizedResize(mark: string, n: nat, m: nat)
    requires 2 <= n && 2 <= m && n != m
    ensures Find(Sized(mark, n).spec.containers, "mongod") == Some(0)
    ensures Resize(Sized(mark, n).spec, "mongod", Memories(m)) == Sized(mark, m).spec
    ensures Canonical(ResourcesOf(Sized(mark, n).spec, "mongod")) == Canonical(Memories(n))
  {
    CacheSizes(n);
    CacheSizes(m);
    StoredIsApplied(Memories(n));
    var a, b := RoundedList(Canonical(Memories(n)).limits), RoundedList(Memories(m).limits);
    assert Value(n * GIGABYTE * 1000) == n * GIGABYTE && Value(m * GIGABYTE * 1000) == m * GIGABYTE;
    assert a[Memory] == n * GIGABYTE * 1000 && b[Memory] == m * GIGABYTE * 1000;
    assert !SameQuantities(Canonical(Memories(n)).limits, Memories(m).limits);
  }

  /** A pod at rest, labelled `mark`, holding and enforcing `n` gigabytes. */
  function AtRest(mark: string, n: nat, cacheGB: real): World {
    World(Sized(mark, n), Canonical(Memories(n)), cacheGB, NoAttempt)
  }

  /** The pod sits within its bounds when its cache is the one its limit asks for. */
  lemma RestingCaches(mark: string, n: nat, cacheGB: real)
    requires 2 <= n
    ensures CacheOf(THREE_SIZES, AtRest(mark, n, cacheGB).applied) == Half(n)
    ensures Find(AtRest(mark, n, cacheGB).pod.spec.containers, "mongod").Some?
    ensures SpecCache(THREE_SIZES, AtRest(mark, n, cacheGB)) == Half(n)
  {
    CacheSizes(n);
    SizedResize(mark, n, n + 1);
  }

  lemma StartsFresh(mark: string, n: nat)
    requires Revision(mark, n)
    ensures Fresh(THREE_SIZES, AtRest(mark, n, Half(n)))
  {
    var w, r := AtRest(mark, n, Half(n)), Memories(n);
    RestingCaches(mark, n, Half(n));
    StoredIsApplied(r);
    StoredIsApplied(Canonical(r));
    WithResourcesFind(OneContainer(r).containers, "mongod", Canonical(r));
    assert w.pod.spec.containers == WithResources(OneContainer(r).containers, "mongod", Canonical(r));
  }

  /** An attempt that gets as far as the kubelet, sets the cache, and is cut off before its label moves. */
  lemma CutOffAttempt(mark: string, n: nat, rev: string, m: nat) returns (t: Trace)
    requires Revision(mark, n) && Revision(rev, m) && n != m
    ensures Recorded(THREE_SIZES, t, rev, AtRest(mark, n, Half(n)), AtRest(mark, m, Half(m)))
  {
    var first := AtRest(mark, n, Half(n));
    t := Trace([first], []);
    SizedPlan(mark, n, n, rev, m);
    var plan := PlanFor(THREE_SIZES, first.pod, rev).value;
    t := Record(THREE_SIZES, t, rev, first, first, Begin(rev));
    if m < n {
      t := ShrinkCutOff(mark, n, rev, m, t, plan);
    } else {
      t := GrowCutOff(mark, n, rev, m, t, plan);
    }
  }

  /** The world of an attempt at a given stage. */
  function During(mark: string, n: nat, applied: nat, cacheGB: real, attempt: Attempt): World {
    World(Sized(mark, n), Canonical(Memories(applied)), cacheGB, attempt)
  }

  lemma PatchStep(mark: string, n: nat, m: nat, applied: nat, cacheGB: real, attempt: Attempt)
    requires 2 <= n && 2 <= m && n != m && attempt.Attempt? && attempt.plan.target == Memories(m)
    requires attempt.stage == CacheLowered || (attempt.stage == Planned && attempt.plan.memory != Shrink)
    ensures Enabled(THREE_SIZES, During(mark, n, applied, cacheGB, attempt), PatchResources)
    ensures Step(THREE_SIZES, During(mark, n, applied, cacheGB, attempt), PatchResources) ==
            During(mark, m, applied, cacheGB, attempt.(stage := Resized))
  {
    SizedResize(mark, n, m);
  }

  lemma KubeletStep(mark: string, n: nat, applied: nat, cacheGB: real, attempt: Attempt)
    requires 2 <= n
    ensures Enabled(THREE_SIZES, During(mark, n, applied, cacheGB, attempt), KubeletApplies)
    ensures Step(THREE_SIZES, During(mark, n, applied, cacheGB, attempt), KubeletApplies) ==
            During(mark, n, n, cacheGB, attempt)
  {
    SizedResize(mark, n, n + 1);
  }

  lemma ShrinkCutOff(mark: string, n: nat, rev: string, m: nat, t0: Trace, plan: Plan) returns (t: Trace)
    requires Revision(mark, n) && Revision(rev, m) && m < n
    requires plan == Plan(Memories(m), Shrink, Half(m))
    requires Recorded(THREE_SIZES, t0, rev, AtRest(mark, n, Half(n)),
                      During(mark, n, n, Half(n), Attempt(rev, plan, Planned)))
    ensures Recorded(THREE_SIZES, t, rev, AtRest(mark, n, Half(n)), AtRest(mark, m, Half(m)))
  {
    var e, first := THREE_SIZES, AtRest(mark, n, Half(n));
    var old', new' := Half(n), Half(m);
    PatchStep(mark, n, m, n, new', Attempt(rev, plan, CacheLowered));
    KubeletStep(mark, m, n, new', Attempt(rev, plan, Resized));
    t := Record(e, t0, rev, first, During(mark, n, n, old', Attempt(rev, plan, Planned)), LowerCache);
    t := Record(e, t, rev, first, During(mark, n, n, new', Attempt(rev, plan, CacheLowered)), PatchResources);
    t := Record(e, t, rev, first, During(mark, m, n, new', Attempt(rev, plan, Resized)), KubeletApplies);
    t := Record(e, t, rev, first, During(mark, m, m, new', Attempt(rev, plan, Resized)), CutOff);
  }

  lemma GrowCutOff(mark: string, n: nat, rev: string, m: nat, t0: Trace, plan: Plan) returns (t: Trace)
    requires Revision(mark, n) && Revision(rev, m) && n < m
    requires plan == Plan(Memories(m), Grow, Half(m))
    requires Recorded(THREE_SIZES, t0, rev, AtRest(mark, n, Half(n)),
                      During(mark, n, n, Half(n), Attempt(rev, plan, Planned)))
    ensures Recorded(THREE_SIZES, t, rev, AtRest(mark, n, Half(n)), AtRest(mark, m, Half(m)))
  {
    var e, first := THREE_SIZES, AtRest(mark, n, Half(n));
    var old', new' := Half(n), Half(m);
    PatchStep(mark, n, m, n, old', Attempt(rev, plan, Planned));
    KubeletStep(mark, m, n, old', Attempt(rev, plan, Resized));
    StoredIsApplied(Memories(m));
    t := Record(e, t0, rev, first, During(mark, n, n, old', Attempt(rev, plan, Planned)), PatchResources);
    t := Record(e, t, rev, first, During(mark, m, n, old', Attempt(rev, plan, Resized)), KubeletApplies);
    t := Record(e, t, rev, first, During(mark, m, m, old', Attempt(rev, plan, Resized)), SeeApplied);
    t := Record(e, t, rev, first, During(mark, m, m, old', Attempt(rev, plan, Observed)), RaiseCache);
    t := Record(e, t, rev, first, During(mark, m, m, new', Attempt(rev, plan, CacheRaised)), CutOff);
  }

  /** The worlds of one run followed by those of another that begins where the first ends. */
  lemma Joined(e: Setup, worlds: seq<World>, actions: seq<Action>, worlds2: seq<World>, actions2: seq<Action>)
    requires IsRun(e, worlds, actions) && IsRun(e, worlds2, actions2) && worlds[|actions|] == worlds2[0]
    ensures IsRun(e, worlds + worlds2[1..], actions + actions2)
    ensures (worlds + worlds2[1..])[|actions| + |actions2|] == worlds2[|actions2|]
  {
    var ws, acts := worlds + worlds2[1..], actions + actions2;
    forall i | 0 <= i < |acts| ensures Enabled(e, ws[i], acts[i]) && ws[i + 1] == Step(e, ws[i], acts[i]) {
      if i < |actions| {
        assert acts[i] == actions[i] && ws[i] == worlds[i] && ws[i + 1] == worlds[i + 1];
      } else {
        var j := i - |actions|;
        assert acts[i] == actions2[j] && ws[i] == worlds2[j] && ws[i + 1] == worlds2[j + 1];
      }
    }
  }

  /** A fresh pod, an attempt toward `mid` cut off late, and an attempt toward `rev` that breaks the bound. */
  lemma BreaksAfterCutOff(mark: string, n: nat, mid: string, m: nat, rev: string, to: nat)
    returns (worlds: seq<World>, actions: seq<Action>)
    requires Revision(mark, n) && Revision(mid, m) && Revision(rev, to) && n != m && n != to
    requires if to < n then m < to else to < m
    ensures IsRun(THREE_SIZES, worlds, actions) && Fresh(THREE_SIZES, worlds[0])
    ensures worlds[0] == AtRest(mark, n, Half(n))
    ensures OverLimit(THREE_SIZES, worlds[|actions|])
  {
    var e, w := THREE_SIZES, AtRest(mark, m, Half(m));
    StartsFresh(mark, n);
    var t := CutOffAttempt(mark, n, mid, m);
    RestingCaches(mark, m, Half(m));
    SizedPlan(mark, n, m, rev, to);
    CacheSizes(to);
    var worlds2, actions2 := BreakingRun(e, w, rev);
    Joined(e, t.worlds, t.actions, worlds2, actions2);
    worlds, actions := t.worlds + worlds2[1..], t.actions + actions2;
  }

  /**
   An attempt from two toward four gigabytes is cut off before its label moves; the revision then
   changes to three, the plan sees growth, and the limit comes down under the larger cache.
   */
  lemma ChangedTargetBreaksCacheBound() returns (worlds: seq<World>, actions: seq<Action>)
    ensures IsRun(THREE_SIZES, worlds, actions) && Fresh(THREE_SIZES, worlds[0])
    ensures worlds[0].pod.revision == "r2" && OverLimit(THREE_SIZES, worlds[|actions|])
  {
    worlds, actions := BreaksAfterCutOff("r2", 2, "r4", 4, "r3", 3);
  }

  /**
   An attempt from four toward two gigabytes is cut off before its label moves; the revision then
   changes to three, the plan sees shrinking, and lowering the cache raises it above the limit.
   */
  lemma LoweringRaisesTheCache() returns (worlds: seq<World>, actions: seq<Action>)
    ensures IsRun(THREE_SIZES, worlds, actions) && Fresh(THREE_SIZES, worlds[0])
    ensures worlds[0].pod.revision == "r4" && OverLimit(THREE_SIZES, worlds[|actions|])
  {
    worlds, actions := BreaksAfterCutOff("r4", 4, "r2", 2, "r3", 3);
  }
}
