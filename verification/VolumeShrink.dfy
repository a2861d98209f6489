/**
 The PVC shrink machine of one StatefulSet: preflight, secondaries, stepdown, primary, cleared.
 A pod is named by its ordinal. The StatefulSet controller, the kubelet and elections act
 between any two reconciles, and the primary may change between any two questions of one
 reconcile. Progress is stored only at some exits, and the status write that stores it may be lost.
 */
module VolumeShrink {
  import opened Options
  import opened PodOrder

  datatype Pod = Pod(ready: bool, terminating: bool)

  datatype Claim = Claim(request: nat, terminating: bool)

  /** The pods and claims of the StatefulSet; `replicas` and `target` do not change during a shrink. */
  datatype Cluster = Cluster(replicas: nat, target: nat, pods: map<int, Pod>, claims: map<int, Claim>)

  datatype Phase = NotStarted | Secondaries | Stepdown | Primary | Cleared

  datatype Shrink = Shrink(phase: Phase, primary: Option<int>, processed: seq<int>)

  /** isPodPrimary: the answer, or the error that made it unknown. */
  datatype Answer = IsPrimary | IsSecondary | Unknown

  function Ask(answers: map<int, Answer>, o: int): Answer {
    if o in answers then answers[o] else Unknown
  }

  /** What one pass over the pods decides. */
  datatype Verdict =
    | Wait
    | Replace(o: int)
    | Elected(o: int, processed: seq<int>)
    | Finished(processed: seq<int>)

  /** The pod is not this phase's business: secondaries leave the tracked primary, the primary phase takes only it. */
  predicate OutOfPhase(st: Shrink, o: int) {
    if st.phase == Primary then st.primary != Some(o) else st.primary == Some(o)
  }

  /** The pods a list call returns, highest ordinal first. */
  function Listing(pods: map<int, Pod>, n: nat): seq<int> {
    if n == 0 then [] else (if n - 1 in pods then [n - 1] else []) + Listing(pods, n - 1)
  }

  /** shrinkProcessPods' loop over the listed pods, from the first of `list` on. */
  function Walk(
    c: Cluster, st: Shrink, member: bool, list: seq<int>, processed: seq<int>, answers: map<int, Answer>): Verdict
    decreases |list|
  {
    if list == [] then Finished(processed)
    else
      var o, rest := list[0], list[1..];
      if OutOfPhase(st, o) || o in processed then Walk(c, st, member, rest, processed, answers)
      else if o !in c.claims then Wait
      else if c.claims[o].request > c.target then Replace(o)
      else if o !in c.pods || !c.pods[o].ready then Wait
      else if member && Ask(answers, o) == Unknown then Wait
      else if member && Ask(answers, o) == IsPrimary then
        if st.phase == Secondaries then Elected(o, processed) else Wait
      else Walk(c, st, member, rest, processed + [o], answers)
  }

  /** No expected pod of this phase is missing. */
  predicate NoneMissing(c: Cluster, st: Shrink) {
    forall o :: 0 <= o < c.replicas && !OutOfPhase(st, o) && o !in st.processed ==> o in c.pods
  }

  /** shrinkProcessPods: `blocked` stands for a running backup or restore. */
  function Decide(c: Cluster, st: Shrink, member: bool, blocked: bool, answers: map<int, Answer>): Verdict {
    if blocked || !NoneMissing(c, st) then Wait
    else Walk(c, st, member, Listing(c.pods, c.replicas), st.processed, answers)
  }

  /** How many of the two delete calls of a replacement went through. */
  datatype Deletes = NoDelete | ClaimOnly | ClaimAndPod

  function ReplaceEffect(c: Cluster, o: int, deletes: Deletes): Cluster
    requires o in c.claims && o in c.pods
  {
    if deletes == NoDelete then c
    else
      var claimed := c.(claims := c.claims[o := c.claims[o].(terminating := true)]);
      if deletes == ClaimOnly then claimed
      else claimed.(pods := c.pods[o := c.pods[o].(terminating := true)])
  }

  function ProcessCluster(c: Cluster, v: Verdict, deletes: Deletes): Cluster {
    if v.Replace? && v.o in c.claims && v.o in c.pods then ReplaceEffect(c, v.o, deletes) else c
  }

  /** The state a pass leaves in the custom resource's status. */
  function ProcessState(st: Shrink, v: Verdict): Shrink {
    match v
    case Wait => st
    case Replace(_) => st
    case Elected(o, processed) => st.(primary := Some(o), processed := processed)
    case Finished(processed) =>
      if st.phase == Secondaries then st.(phase := Stepdown, processed := processed)
      else st.(phase := Cleared)
  }

  /** What shrinkStepdown finds when it looks for the tracked primary. */
  datatype StepdownAnswer = PodReadFailed | PrimaryUnknown | NotPrimary | StepdownFailed | SteppedDown

  function StepdownState(c: Cluster, st: Shrink, needsStepdown: bool, answer: StepdownAnswer): Shrink {
    if !needsStepdown || st.primary.None? then st.(phase := Primary)
    else if answer == PodReadFailed then st
    else if st.primary.value !in c.pods then st.(phase := Primary)
    else if answer == PrimaryUnknown || answer == StepdownFailed then st
    else st.(phase := Primary)
  }

  /** The machine as the operator runs it: the objects it deletes and the state it stores. */
  class ShrinkController {
    const member: bool
    const needsStepdown: bool
    var cluster: Cluster
    var state: Shrink

    constructor (member: bool, needsStepdown: bool, cluster: Cluster, state: Shrink)
      ensures this.member == member && this.needsStepdown == needsStepdown
      ensures this.cluster == cluster && this.state == state
    {
      this.member, this.needsStepdown, this.cluster, this.state := member, needsStepdown, cluster, state;
    }

    method MissingPod() returns (missing: bool)
      ensures missing == !NoneMissing(cluster, state)
    {
      for i := 0 to cluster.replicas
        invariant forall o :: 0 <= o < i && !OutOfPhase(state, o) && o !in state.processed ==> o in cluster.pods
      {
        if OutOfPhase(state, i) || i in state.processed {
          continue;
        }
        if i !in cluster.pods {
          return true;
        }
      }
      return false;
    }

    /** The loop of shrinkProcessPods, up to the exit it takes. */
    method WalkPods(list: seq<int>, answers: map<int, Answer>) returns (v: Verdict)
      ensures v == Walk(cluster, state, member, list, state.processed, answers)
    {
      var processed := state.processed;
      var i := 0;
      while i < |list|
        invariant 0 <= i <= |list|
        invariant Walk(cluster, state, member, list, state.processed, answers)
               == Walk(cluster, state, member, list[i..], processed, answers)
      {
        var o := list[i];
        assert list[i..][0] == o && list[i..][1..] == list[i + 1..];
        if OutOfPhase(state, o) || o in processed {
          i := i + 1;
          continue;
        }
        if o !in cluster.claims {
          return Wait;
        }
        if cluster.claims[o].request > cluster.target {
          return Replace(o);
        }
        if o !in cluster.pods || !cluster.pods[o].ready {
          return Wait;
        }
        if member {
          var answer := Ask(answers, o);
          if answer == Unknown {
            return Wait;
          }
          if answer == IsPrimary {
            return if state.phase == Secondaries then Elected(o, processed) else Wait;
          }
        }
        processed := processed + [o];
        i := i + 1;
      }
      return Finished(processed);
    }

    /** The two delete calls of a replacement, the second only after the first went through. */
    method ReplacePod(o: int, deletes: Deletes)
      requires o in cluster.claims && o in cluster.pods
      modifies this`cluster
      ensures cluster == ReplaceEffect(old(cluster), o, deletes)
    {
      if deletes == NoDelete {
        return;
      }
      cluster := cluster.(claims := cluster.claims[o := cluster.claims[o].(terminating := true)]);
      if deletes == ClaimOnly {
        return;
      }
      cluster := cluster.(pods := cluster.pods[o := cluster.pods[o].(terminating := true)]);
    }

    /** The reading half of shrinkProcessPods: `items` is the pod list in whatever order the API returned it. */
    method Examine(items: seq<int>, blocked: bool, answers: map<int, Answer>) returns (v: Verdict)
      requires multiset(items) == multiset(Listing(cluster.pods, cluster.replicas))
      ensures v == Decide(cluster, state, member, blocked, answers)
    {
      if blocked {
        return Wait;
      }
      var list := Sort(true, items);
      ListingOrdered(cluster.pods, cluster.replicas);
      OrderedUnique(true, list, Listing(cluster.pods, cluster.replicas));
      var missing := MissingPod();
      if missing {
        return Wait;
      }
      v := WalkPods(list, answers);
    }

    /** shrinkProcessPods. */
    method ProcessPods(items: seq<int>, blocked: bool, answers: map<int, Answer>, deletes: Deletes)
      requires state.phase == Secondaries || state.phase == Primary
      requires multiset(items) == multiset(Listing(cluster.pods, cluster.replicas))
      modifies this
      ensures var v := Decide(old(cluster), old(state), member, blocked, answers);
              && cluster == ProcessCluster(old(cluster), v, deletes)
              && state == ProcessState(old(state), v)
    {
      var v := Examine(items, blocked, answers);
      match v {
        case Wait =>
        case Replace(o) =>
          ReplacesExisting(cluster, state, member, blocked, answers);
          ReplacePod(o, deletes);
        case Elected(o, processed) =>
          state := state.(primary := Some(o), processed := processed);
        case Finished(processed) =>
          if state.phase == Secondaries {
            state := state.(phase := Stepdown, processed := processed);
          } else {
            state := state.(phase := Cleared);
          }
      }
    }

    /** shrinkStepdown. */
    method StepDown(answer: StepdownAnswer)
      requires state.phase == Stepdown
      modifies this`state
      ensures state == StepdownState(cluster, old(state), needsStepdown, answer)
      ensures if && needsStepdown && old(state).primary.Some?
                 && (|| answer == PodReadFailed
                     || (&& old(state).primary.value in cluster.pods
                         && (answer == PrimaryUnknown || answer == StepdownFailed)))
              then state == old(state)
              else state == old(state).(phase := Primary)
    {
      if !needsStepdown || state.primary.None? {
        state := state.(phase := Primary);
        return;
      }
      if answer == PodReadFailed {
        return;
      }
      if state.primary.value in cluster.pods {
        if answer == PrimaryUnknown || answer == StepdownFailed {
          return;
        }
      }
      state := state.(phase := Primary);
    }
  }

  /** A pod picked for replacement exists and has a claim. */
  lemma ReplacesExisting(c: Cluster, st: Shrink, member: bool, blocked: bool, answers: map<int, Answer>)
    requires Decide(c, st, member, blocked, answers).Replace?
    ensures var o := Decide(c, st, member, blocked, answers).o; o in c.claims && o in c.pods
  {
    ListingOrdered(c.pods, c.replicas);
    WalkReplace(c, st, member, Listing(c.pods, c.replicas), st.processed, answers);
    ListingPresent(c.pods, c.replicas, Decide(c, st, member, blocked, answers).o);
  }

  lemma {:induction false} ListingPresent(pods: map<int, Pod>, n: nat, o: int)
    ensures o in Listing(pods, n) <==> 0 <= o < n && o in pods
  {
    if n == 0 {
    } else {
      ListingPresent(pods, n - 1, o);
    }
  }

  predicate Descending(list: seq<int>) {
    forall i, j :: 0 <= i < j < |list| ==> list[i] > list[j]
  }

  lemma {:induction false} ListingDescends(pods: map<int, Pod>, n: nat)
    ensures Descending(Listing(pods, n)) && forall i :: 0 <= i < |Listing(pods, n)| ==> Listing(pods, n)[i] < n
  {
    if n == 0 {
    } else {
      var rest := Listing(pods, n - 1);
      ListingDescends(pods, n - 1);
      if n - 1 in pods {
        HigherFirst(n - 1, rest);
      } else {
        assert Listing(pods, n) == rest;
      }
    }
  }

  lemma HigherFirst(o: int, rest: seq<int>)
    requires Descending(rest) && forall i :: 0 <= i < |rest| ==> rest[i] < o
    ensures Descending([o] + rest) && forall i :: 0 <= i < |rest| + 1 ==> ([o] + rest)[i] < o + 1
  {
    var list := [o] + rest;
    assert list[0] == o && forall i :: 0 < i < |list| ==> list[i] == rest[i - 1];
  }

  lemma ListingOrdered(pods: map<int, Pod>, n: nat)
    ensures Ordered(true, Listing(pods, n))
    ensures forall i, j :: 0 <= i < j < |Listing(pods, n)| ==> Listing(pods, n)[i] > Listing(pods, n)[j]
  {
    ListingDescends(pods, n);
  }

  // ---------------------------------------------------------------- runs

  /** The machine and its surroundings; `deletions` counts how often each pod's oversized claim was deleted. */
  datatype World = World(cluster: Cluster, state: Shrink, deletions: map<int, nat>)

  datatype Action =
    | Preflight(primary: Option<int>)
    | Process(member: bool, blocked: bool, answers: map<int, Answer>, deletes: Deletes, stored: bool)
    | StepDown(needsStepdown: bool, answer: StepdownAnswer, stored: bool)
    | ClaimGone(o: int)
    | ClaimCreated(o: int)
    | PodGone(o: int)
    | PodCreated(o: int)
    | PodReady(o: int, ready: bool)

  predicate Enabled(w: World, a: Action) {
    match a
    case Preflight(_) => w.state.phase == NotStarted
    case Process(_, _, _, _, _) => w.state.phase == Secondaries || w.state.phase == Primary
    case StepDown(_, _, _) => w.state.phase == Stepdown
    case ClaimGone(o) => o in w.cluster.claims && w.cluster.claims[o].terminating
    case ClaimCreated(o) => 0 <= o < w.cluster.replicas && o !in w.cluster.claims
    case PodGone(o) => o in w.cluster.pods
    case PodCreated(o) => 0 <= o < w.cluster.replicas && o !in w.cluster.pods
    case PodReady(o, _) => o in w.cluster.pods
  }

  function VerdictOf(w: World, a: Action): Verdict
    requires a.Process?
  {
    Decide(w.cluster, w.state, a.member, a.blocked, a.answers)
  }

  function Deletions(w: World, o: int): nat {
    if o in w.deletions then w.deletions[o] else 0
  }

  /** This action deletes the pod's oversized claim: a delete of a claim already going away changes nothing. */
  predicate DeletesClaim(w: World, a: Action, o: int) {
    && a.Process? && VerdictOf(w, a) == Replace(o) && a.deletes != NoDelete
    && o in w.cluster.claims && o in w.cluster.pods && !w.cluster.claims[o].terminating
  }

  /** This action deletes the pod. */
  predicate DeletesPod(w: World, a: Action, o: int) {
    a.Process? && VerdictOf(w, a) == Replace(o) && a.deletes == ClaimAndPod && o in w.cluster.claims
        && o in w.cluster.pods
  }

  function Step(w: World, a: Action): World
    requires Enabled(w, a)
  {
    var c := w.cluster;
    match a
    case Preflight(primary) => w.(state := Shrink(Secondaries, primary, []))
    case Process(_, _, _, deletes, stored) =>
      var v := VerdictOf(w, a);
      World(ProcessCluster(c, v, deletes),
            if stored then ProcessState(w.state, v) else w.state,
            if v.Replace? && DeletesClaim(w, a, v.o) then w.deletions[v.o := Deletions(w, v.o) + 1] else w.deletions)
    case StepDown(needsStepdown, answer, stored) =>
      w.(state := if stored then StepdownState(c, w.state, needsStepdown, answer) else w.state)
    case ClaimGone(o) => w.(cluster := c.(claims := c.claims - {o}))
    case ClaimCreated(o) => w.(cluster := c.(claims := c.claims[o := Claim(c.target, false)]))
    case PodGone(o) => w.(cluster := c.(pods := c.pods - {o}))
    case PodCreated(o) => w.(cluster := c.(pods := c.pods[o := Pod(false, false)]))
    case PodReady(o, ready) => w.(cluster := c.(pods := c.pods[o := c.pods[o].(ready := ready)]))
  }

  /** Before preflight: no claim is going away, nothing has been deleted yet. */
  predicate Initial(w: World) {
    && w.state == Shrink(NotStarted, None, []) && w.deletions == map[]
    && (forall o :: o in w.cluster.claims ==> !w.cluster.claims[o].terminating)
    && (forall o :: o in w.cluster.pods ==> 0 <= o < w.cluster.replicas)
  }

  ghost predicate IsRun(worlds: seq<World>, actions: seq<Action>) {
    && |worlds| == |actions| + 1
    && Initial(worlds[0])
    && forall i :: 0 <= i < |actions| ==> Enabled(worlds[i], actions[i]) && worlds[i + 1] == Step(worlds[i], actions[i])
  }

  // ---------------------------------------------------------------- one pass

  /** The pod sits on a claim of at most the target size that nobody is deleting. */
  predicate Shrunk(c: Cluster, o: int) {
    o in c.claims && c.claims[o].request <= c.target && !c.claims[o].terminating
  }

  predicate ReadyAndShrunk(c: Cluster, o: int) {
    o in c.claims && c.claims[o].request <= c.target && o in c.pods && c.pods[o].ready
  }

  /** A pass that finishes has every listed pod of its phase among the processed, all on small claims. */
  lemma {:induction false} WalkFinished(
    c: Cluster, st: Shrink, member: bool, list: seq<int>, processed: seq<int>, answers: map<int, Answer>)
    requires Walk(c, st, member, list, processed, answers).Finished?
    ensures var done := Walk(c, st, member, list, processed, answers).processed;
            && (forall o :: o in processed ==> o in done)
            && (forall o :: o in list ==> OutOfPhase(st, o) || o in done)
            && (forall o :: o in done ==> o in processed || ReadyAndShrunk(c, o))
            && (forall o :: o in done && member ==> o in processed || Ask(answers, o) == IsSecondary)
    decreases |list|
  {
    if list == [] {
    } else {
      var o := list[0];
      if OutOfPhase(st, o) || o in processed {
        WalkFinished(c, st, member, list[1..], processed, answers);
      } else {
        WalkFinished(c, st, member, list[1..], processed + [o], answers);
        assert o in processed + [o];
      }
    }
  }

  /** A pass cut short by an election adds only pods on small claims, and never the elected one. */
  lemma {:induction false} WalkElected(
    c: Cluster, st: Shrink, member: bool, list: seq<int>, processed: seq<int>, answers: map<int, Answer>)
    requires Walk(c, st, member, list, processed, answers).Elected?
    ensures var v := Walk(c, st, member, list, processed, answers);
            && st.phase == Secondaries && v.o in list && ReadyAndShrunk(c, v.o)
            && v.o !in v.processed && st.primary != Some(v.o)
            && (forall o :: o in processed ==> o in v.processed)
            && (forall o :: o in v.processed ==> o in processed || ReadyAndShrunk(c, o))
            && (forall o :: o in v.processed && member ==> o in processed || Ask(answers, o) == IsSecondary)
            && member && Ask(answers, v.o) == IsPrimary
    decreases |list|
  {
    var o := list[0];
    if OutOfPhase(st, o) || o in processed {
      WalkElected(c, st, member, list[1..], processed, answers);
    } else if !member || Ask(answers, o) != IsPrimary {
      WalkElected(c, st, member, list[1..], processed + [o], answers);
      assert o in processed + [o];
    }
  }

  /** A pass replaces the first oversized pod of its phase; every pod listed before it is ready on a small claim. */
  lemma {:induction false} WalkReplace(
    c: Cluster, st: Shrink, member: bool, list: seq<int>, processed: seq<int>, answers: map<int, Answer>)
    requires Walk(c, st, member, list, processed, answers).Replace?
    requires forall i, j :: 0 <= i < j < |list| ==> list[i] > list[j]
    ensures var r := Walk(c, st, member, list, processed, answers).o;
            && r in list && !OutOfPhase(st, r) && r !in processed
            && r in c.claims && c.claims[r].request > c.target
            && (forall o :: o in list && o > r && !OutOfPhase(st, o) && o !in processed ==> ReadyAndShrunk(c, o))
    decreases |list|
  {
    var r := Walk(c, st, member, list, processed, answers).o;
    var first, rest := list[0], list[1..];
    if OutOfPhase(st, first) || first in processed {
      WalkReplace(c, st, member, rest, processed, answers);
      assert forall o :: o in list ==> o == first || o in rest;
    } else if first in c.claims && c.claims[first].request > c.target {
      assert r == first;
      assert forall o :: o in list ==> o == first || o in rest;
    } else {
      WalkReplace(c, st, member, rest, processed + [first], answers);
      assert forall o :: o in list ==> o == first || o in rest;
      assert forall o :: o in processed + [first] ==> o in processed || o == first;
    }
  }

  /** A pod the walk goes past: not of this phase, processed, or ready on a small claim and, as a member, secondary. */
  predicate Passes(c: Cluster, st: Shrink, member: bool, processed: seq<int>, answers: map<int, Answer>, o: int) {
    || OutOfPhase(st, o) || o in processed
    || (ReadyAndShrunk(c, o) && (member ==> Ask(answers, o) == IsSecondary))
  }

  /** What the walk says about the first pod it does not go past. */
  predicate StopsAt(c: Cluster, st: Shrink, o: int, answers: map<int, Answer>, v: Verdict) {
    if o !in c.claims then v == Wait
    else if c.claims[o].request > c.target then v == Replace(o)
    else if !ReadyAndShrunk(c, o) || Ask(answers, o) == Unknown || st.phase != Secondaries then v == Wait
    else v.Elected? && v.o == o
  }

  lemma {:induction false} WalkStops(
    c: Cluster, st: Shrink, member: bool, list: seq<int>, processed: seq<int>, answers: map<int, Answer>, k: nat)
    requires Descending(list) && k < |list| && !Passes(c, st, member, processed, answers, list[k])
    requires forall i :: 0 <= i < k ==> Passes(c, st, member, processed, answers, list[i])
    ensures var v := Walk(c, st, member, list, processed, answers);
            && StopsAt(c, st, list[k], answers, v)
            && (v.Elected? ==> forall i :: 0 <= i < k ==> OutOfPhase(st, list[i]) || list[i] in v.processed)
    decreases |list|
  {
    if k == 0 {
    } else {
      var first, rest := list[0], list[1..];
      assert Passes(c, st, member, processed, answers, first);
      var next := if OutOfPhase(st, first) || first in processed then processed else processed + [first];
      forall i | 0 <= i < |rest|
        ensures Passes(c, st, member, next, answers, rest[i])
                <==> Passes(c, st, member, processed, answers, list[i + 1])
      {
        assert rest[i] == list[i + 1] && rest[i] < first;
      }
      WalkStops(c, st, member, rest, next, answers, k - 1);
      var v := Walk(c, st, member, rest, next, answers);
      if v.Elected? {
        WalkElected(c, st, member, rest, next, answers);
        forall i | 0 <= i < k ensures OutOfPhase(st, list[i]) || list[i] in v.processed {
          assert i > 0 ==> rest[i - 1] == list[i];
        }
      }
    }
  }

  lemma {:induction false} WalkGoesThrough(
    c: Cluster, st: Shrink, member: bool, list: seq<int>, processed: seq<int>, answers: map<int, Answer>)
    requires Descending(list) && forall i :: 0 <= i < |list| ==> Passes(c, st, member, processed, answers, list[i])
    ensures Walk(c, st, member, list, processed, answers).Finished?
    decreases |list|
  {
    if list == [] {
    } else {
      var first, rest := list[0], list[1..];
      assert Passes(c, st, member, processed, answers, first);
      var next := if OutOfPhase(st, first) || first in processed then processed else processed + [first];
      forall i | 0 <= i < |rest| ensures Passes(c, st, member, next, answers, rest[i]) {
        assert rest[i] == list[i + 1] && rest[i] < first;
        assert Passes(c, st, member, processed, answers, list[i + 1]);
      }
      WalkGoesThrough(c, st, member, rest, next, answers);
    }
  }

  /**
   What a pass decides, from the pods and the answers alone: nothing while it is blocked or a pod
   of the phase is missing; then the highest pod it does not go past decides, and with none the
   phase is over.
   */
  lemma DecidedExactly(c: Cluster, st: Shrink, member: bool, blocked: bool, answers: map<int, Answer>)
    requires forall o :: o in c.pods ==> 0 <= o < c.replicas
    ensures var v := Decide(c, st, member, blocked, answers);
            if blocked || !NoneMissing(c, st) then v == Wait
            else if forall o :: o in c.pods ==> Passes(c, st, member, st.processed, answers, o) then v.Finished?
            else exists o :: && o in c.pods && HighestStop(c, st, member, answers, o) && StopsAt(c, st, o, answers, v)
                             && (v.Elected? ==> Recorded(c, st, o, v.processed))
  {
    var list := Listing(c.pods, c.replicas);
    ListingDescends(c.pods, c.replicas);
    forall o ensures o in list <==> o in c.pods {
      ListingPresent(c.pods, c.replicas, o);
    }
    if forall o :: o in c.pods ==> Passes(c, st, member, st.processed, answers, o) {
      forall i | 0 <= i < |list| ensures Passes(c, st, member, st.processed, answers, list[i]) {
        assert list[i] in list;
      }
      WalkGoesThrough(c, st, member, list, st.processed, answers);
    } else {
      var o :| o in c.pods && !Passes(c, st, member, st.processed, answers, o);
      var k := FirstStop(c, st, member, list, answers, o);
      StopDecides(c, st, member, list, answers, k);
    }
  }

  lemma StopDecides(c: Cluster, st: Shrink, member: bool, list: seq<int>, answers: map<int, Answer>, k: nat)
    requires Descending(list) && k < |list| && !Passes(c, st, member, st.processed, answers, list[k])
    requires forall i :: 0 <= i < k ==> Passes(c, st, member, st.processed, answers, list[i])
    requires forall o :: o in list <==> o in c.pods
    ensures var v := Walk(c, st, member, list, st.processed, answers);
            && list[k] in c.pods && HighestStop(c, st, member, answers, list[k]) && StopsAt(c, st, list[k], answers, v)
            && (v.Elected? ==> Recorded(c, st, list[k], v.processed))
  {
    WalkStops(c, st, member, list, st.processed, answers, k);
    assert list[k] in list;
    forall q | q in c.pods && q > list[k] ensures exists i :: 0 <= i < k && list[i] == q {
      var i :| 0 <= i < |list| && list[i] == q;
      assert i < k;
    }
  }

  /** The walk does not go past `o`, and goes past every pod above it. */
  ghost predicate HighestStop(c: Cluster, st: Shrink, member: bool, answers: map<int, Answer>, o: int) {
    && !Passes(c, st, member, st.processed, answers, o)
    && forall q :: q in c.pods && q > o ==> Passes(c, st, member, st.processed, answers, q)
  }

  /** Every pod of the phase above `o` is in the list of processed ones. */
  predicate Recorded(c: Cluster, st: Shrink, o: int, processed: seq<int>) {
    forall q :: q in c.pods && q > o && !OutOfPhase(st, q) ==> q in processed
  }

  lemma FirstStop(c: Cluster, st: Shrink, member: bool, list: seq<int>, answers: map<int, Answer>, o: int)
    returns (k: nat)
    requires o in list && !Passes(c, st, member, st.processed, answers, o)
    ensures k < |list| && !Passes(c, st, member, st.processed, answers, list[k])
    ensures forall i :: 0 <= i < k ==> Passes(c, st, member, st.processed, answers, list[i])
  {
    k := 0;
    while k < |list| && Passes(c, st, member, st.processed, answers, list[k])
      invariant k <= |list| && forall i :: 0 <= i < k ==> Passes(c, st, member, st.processed, answers, list[i])
    {
      k := k + 1;
    }
  }

  // ---------------------------------------------------------------- invariants

  predicate Handled(w: World, o: int) {
    o in w.state.processed ==> Shrunk(w.cluster, o)
  }

  /** At most one deletion of the pod's claim, and only on the way to a small one. */
  predicate DeletedOnce(w: World, o: int) {
    && Deletions(w, o) <= 1
    && (Deletions(w, o) == 1 && o in w.cluster.claims ==> w.cluster.claims[o].terminating || Shrunk(w.cluster, o))
  }

  /** Only a claim above the target is ever going away. */
  predicate TerminatingIsLarge(w: World, o: int) {
    o in w.cluster.claims && w.cluster.claims[o].terminating ==> w.cluster.claims[o].request > w.cluster.target
  }

  /** Where the machine has to have been for every expected pod. */
  predicate PhaseProgress(w: World, o: int) {
    match w.state.phase
    case NotStarted => true
    case Secondaries => true
    case Stepdown => w.state.primary == Some(o) || o in w.state.processed
    case Primary => w.state.primary == Some(o) || o in w.state.processed
    case Cleared => Shrunk(w.cluster, o)
  }

  ghost predicate Inv(w: World) {
    && (forall o :: o in w.cluster.pods ==> 0 <= o < w.cluster.replicas)
    && (forall o :: Handled(w, o))
    && (forall o :: DeletedOnce(w, o))
    && (forall o :: TerminatingIsLarge(w, o))
    && (forall o :: 0 <= o < w.cluster.replicas ==> PhaseProgress(w, o))
  }

  lemma InitialInv(w: World)
    requires Initial(w)
    ensures Inv(w)
  {
  }

  function Rank(p: Phase): nat {
    match p
    case NotStarted => 0
    case Secondaries => 1
    case Stepdown => 2
    case Primary => 3
    case Cleared => 4
  }

  /** The verdict of a pass, unfolded: what it says about the cluster it looked at. */
  lemma VerdictMeaning(w: World, a: Action)
    requires Inv(w) && a.Process? && Enabled(w, a)
    ensures var v, c, st := VerdictOf(w, a), w.cluster, w.state;
            match v
            case Wait => true
            case Replace(r) =>
              && r in c.claims && c.claims[r].request > c.target && r in c.pods
              && !OutOfPhase(st, r) && r !in st.processed && NoneMissing(c, st)
              && (forall o :: o in c.pods && o > r && !OutOfPhase(st, o) && o !in st.processed ==> ReadyAndShrunk(c, o))
            case Elected(o, processed) =>
              && st.phase == Secondaries && ReadyAndShrunk(c, o) && o !in processed && st.primary != Some(o)
              && (forall q :: q in processed ==> q in st.processed || ReadyAndShrunk(c, q))
              && (forall q :: q in st.processed ==> q in processed)
            case Finished(processed) =>
              && (forall q :: q in processed ==> q in st.processed || ReadyAndShrunk(c, q))
              && (forall q :: q in st.processed ==> q in processed)
              && (forall q :: 0 <= q < c.replicas && !OutOfPhase(st, q) ==> q in processed)
  {
    var v, c, st := VerdictOf(w, a), w.cluster, w.state;
    var list := Listing(c.pods, c.replicas);
    forall o ensures o in list <==> 0 <= o < c.replicas && o in c.pods {
      ListingPresent(c.pods, c.replicas, o);
    }
    match v {
      case Wait =>
      case Replace(_) =>
        ListingOrdered(c.pods, c.replicas);
        WalkReplace(c, st, a.member, list, st.processed, a.answers);
      case Elected(_, _) =>
        WalkElected(c, st, a.member, list, st.processed, a.answers);
      case Finished(_) =>
        WalkFinished(c, st, a.member, list, st.processed, a.answers);
    }
  }

  /** A small claim is never deleted, by the machine or by anyone else. */
  lemma ShrunkStays(w: World, a: Action, o: int)
    requires Inv(w) && Enabled(w, a) && Shrunk(w.cluster, o)
    ensures Shrunk(Step(w, a).cluster, o)
  {
    if a.Process? {
      VerdictMeaning(w, a);
    }
  }

  lemma ReadyMeansShrunk(w: World, o: int)
    requires Inv(w) && ReadyAndShrunk(w.cluster, o)
    ensures Shrunk(w.cluster, o)
  {
    assert TerminatingIsLarge(w, o);
  }

  /** Every action keeps the invariant. */
  lemma StepInv(w: World, a: Action)
    requires Inv(w) && Enabled(w, a)
    ensures Inv(Step(w, a))
  {
    var w' := Step(w, a);
    if a.Process? {
      VerdictMeaning(w, a);
    }
    forall o ensures Handled(w', o) {
      assert Handled(w, o);
      if Shrunk(w.cluster, o) {
        ShrunkStays(w, a, o);
      } else if ReadyAndShrunk(w.cluster, o) {
        ReadyMeansShrunk(w, o);
      }
    }
    forall o ensures DeletedOnce(w', o) && TerminatingIsLarge(w', o) {
      assert DeletedOnce(w, o) && TerminatingIsLarge(w, o);
    }
    forall o | 0 <= o < w'.cluster.replicas ensures PhaseProgress(w', o) {
      assert PhaseProgress(w, o) && Handled(w, o) && Handled(w', o);
      if Shrunk(w.cluster, o) {
        ShrunkStays(w, a, o);
      } else if ReadyAndShrunk(w.cluster, o) {
        ReadyMeansShrunk(w, o);
      }
    }
  }

  lemma {:induction false} RunInv(worlds: seq<World>, actions: seq<Action>, i: nat)
    requires IsRun(worlds, actions) && i < |worlds|
    ensures Inv(worlds[i])
  {
    if i == 0 {
      InitialInv(worlds[0]);
    } else {
      RunInv(worlds, actions, i - 1);
      StepInv(worlds[i - 1], actions[i - 1]);
    }
  }

  // ---------------------------------------------------------------- whole runs

  /** Phases only move forward, elections and lost status writes included. */
  lemma {:induction false} PhasesMoveForward(worlds: seq<World>, actions: seq<Action>, i: nat, j: nat)
    requires IsRun(worlds, actions) && i <= j < |worlds|
    ensures Rank(worlds[i].state.phase) <= Rank(worlds[j].state.phase)
    decreases j
  {
    if i == j {
    } else {
      PhasesMoveForward(worlds, actions, i, j - 1);
      RunInv(worlds, actions, j - 1);
      PhaseStep(worlds[j - 1], actions[j - 1]);
    }
  }

  lemma PhaseStep(w: World, a: Action)
    requires Inv(w) && Enabled(w, a)
    ensures Rank(w.state.phase) <= Rank(Step(w, a).state.phase)
  {
    if a.Process? {
      VerdictMeaning(w, a);
    }
  }

  /** Over a whole run each pod's oversized claim is deleted at most once, and no small claim ever is. */
  lemma ClaimDeletedAtMostOnce(worlds: seq<World>, actions: seq<Action>, o: int, i: nat, j: nat)
    requires IsRun(worlds, actions) && i < j < |actions|
    requires DeletesClaim(worlds[i], actions[i], o)
    ensures !DeletesClaim(worlds[j], actions[j], o)
  {
    RunInv(worlds, actions, i + 1);
    DeletionsGrow(worlds, actions, o, i, i + 1);
    DeletionsGrow(worlds, actions, o, i + 1, j);
    RunInv(worlds, actions, j + 1);
    assert DeletedOnce(worlds[j + 1], o);
  }

  lemma {:induction false} DeletionsGrow(worlds: seq<World>, actions: seq<Action>, o: int, i: nat, j: nat)
    requires IsRun(worlds, actions) && i <= j < |worlds|
    ensures Deletions(worlds[i], o) <= Deletions(worlds[j], o)
    decreases j
  {
    if i == j {
    } else {
      DeletionsGrow(worlds, actions, o, i, j - 1);
    }
  }

  /** When the shrink state is cleared, every expected pod's claim is at most the target. */
  lemma ClearedMeansShrunk(worlds: seq<World>, actions: seq<Action>, i: nat, o: int)
    requires IsRun(worlds, actions) && i < |worlds|
    requires worlds[i].state.phase == Cleared && 0 <= o < worlds[i].cluster.replicas
    ensures o in worlds[i].cluster.claims && worlds[i].cluster.claims[o].request <= worlds[i].cluster.target
  {
    RunInv(worlds, actions, i);
    assert PhaseProgress(worlds[i], o);
  }

  /** The step that ended the stepdown phase found `o` gone or not primary, or made it step down, if that was needed. */
  ghost predicate SteppedAside(worlds: seq<World>, actions: seq<Action>, j: nat, o: int)
    requires j < |actions| && j + 1 < |worlds|
  {
    && worlds[j].state.phase == Stepdown && worlds[j + 1].state.phase == Primary && actions[j].StepDown?
    && worlds[j].state.primary == Some(o)
    && (actions[j].needsStepdown ==>
          o !in worlds[j].cluster.pods || actions[j].answer == NotPrimary || actions[j].answer == SteppedDown)
  }

  lemma {:induction false} EnteredPrimary(worlds: seq<World>, actions: seq<Action>, k: nat, o: int)
    requires IsRun(worlds, actions) && k < |worlds|
    requires worlds[k].state.phase == Primary && worlds[k].state.primary == Some(o)
    ensures exists j :: 0 <= j < k && SteppedAside(worlds, actions, j, o)
  {
    var w, a := worlds[k - 1], actions[k - 1];
    assert worlds[k] == Step(w, a);
    RunInv(worlds, actions, k - 1);
    if a.Process? {
      VerdictMeaning(w, a);
    }
    if w.state.phase == Primary {
      EnteredPrimary(worlds, actions, k - 1, o);
    } else {
      assert SteppedAside(worlds, actions, k - 1, o);
    }
  }

  /** In every run, the primary phase replaces only the tracked primary, and only once it has stepped aside. */
  lemma PrimaryGoesAfterStepdown(worlds: seq<World>, actions: seq<Action>, k: nat, o: int)
    requires IsRun(worlds, actions) && k < |actions| && worlds[k].state.phase == Primary
    requires DeletesClaim(worlds[k], actions[k], o) || DeletesPod(worlds[k], actions[k], o)
    ensures worlds[k].state.primary == Some(o)
    ensures exists j :: 0 <= j < k && SteppedAside(worlds, actions, j, o)
  {
    RunInv(worlds, actions, k);
    VerdictMeaning(worlds[k], actions[k]);
    EnteredPrimary(worlds, actions, k, o);
  }

  // ---------------------------------------------------------------- runs with a steady primary

  /** From preflight up to position `k`, the machine is in its secondaries phase and tracks one primary. */
  ghost predicate SteadyUpTo(worlds: seq<World>, k: nat, primary: Option<int>) {
    && k < |worlds|
    && forall i :: 0 <= i <= k ==>
         || worlds[i].state.phase == NotStarted
         || (worlds[i].state.phase == Secondaries && worlds[i].state.primary == primary)
  }

  /** No pod below a replaced one has been passed over: everything above a replaced pod is small already. */
  predicate ReplacedFromTheTop(w: World, primary: Option<int>, r: int) {
    Deletions(w, r) > 0 ==>
      && Some(r) != primary
      && forall q :: r < q < w.cluster.replicas && Some(q) != primary ==>
           q in w.cluster.claims && w.cluster.claims[q].request <= w.cluster.target && !w.cluster.claims[q].terminating
  }

  ghost predicate SteadyInv(w: World, primary: Option<int>) {
    && w.state.processed == []
    && forall r :: ReplacedFromTheTop(w, primary, r)
  }

  lemma SteadyStep(w: World, a: Action, primary: Option<int>)
    requires Inv(w) && Enabled(w, a) && SteadyInv(w, primary)
    requires w.state.phase == NotStarted || (w.state.phase == Secondaries && w.state.primary == primary)
    requires var st' := Step(w, a).state;
             st'.phase == NotStarted || (st'.phase == Secondaries && st'.primary == primary)
    ensures SteadyInv(Step(w, a), primary)
  {
    var w' := Step(w, a);
    if a.Process? {
      VerdictMeaning(w, a);
    }
    forall r ensures ReplacedFromTheTop(w', primary, r) {
      assert ReplacedFromTheTop(w, primary, r);
      forall q | r < q < w.cluster.replicas && Some(q) != primary && Deletions(w', r) > 0
        ensures Shrunk(w'.cluster, q)
      {
        if Deletions(w, r) == 0 {
          assert ReadyAndShrunk(w.cluster, q);
          ReadyMeansShrunk(w, q);
        }
        assert Shrunk(w.cluster, q);
        ShrunkStays(w, a, q);
      }
    }
  }

  lemma {:induction false} SteadyRun(worlds: seq<World>, actions: seq<Action>, k: nat, primary: Option<int>)
    requires IsRun(worlds, actions) && SteadyUpTo(worlds, k, primary)
    ensures SteadyInv(worlds[k], primary)
  {
    if k == 0 {
    } else {
      SteadyRun(worlds, actions, k - 1, primary);
      RunInv(worlds, actions, k - 1);
      assert worlds[k] == Step(worlds[k - 1], actions[k - 1]);
      assert worlds[k - 1].state.phase == NotStarted || worlds[k - 1].state.primary == primary;
      SteadyStep(worlds[k - 1], actions[k - 1], primary);
    }
  }

  /**
   While the tracked primary does not change, the secondaries phase deletes a pod only when every
   expected pod of the phase exists and every pod replaced earlier is ready on a small claim, and
   it never touches the tracked primary.
   */
  lemma OneMemberOutAtATime(worlds: seq<World>, actions: seq<Action>, k: nat, primary: Option<int>, o: int)
    requires IsRun(worlds, actions) && k < |actions| && SteadyUpTo(worlds, k, primary)
    requires worlds[k].state.phase == Secondaries
    requires DeletesClaim(worlds[k], actions[k], o) || DeletesPod(worlds[k], actions[k], o)
    ensures Some(o) != primary
    ensures forall q :: 0 <= q < worlds[k].cluster.replicas && Some(q) != primary ==> q in worlds[k].cluster.pods
    ensures forall r :: r != o && Deletions(worlds[k], r) > 0 ==> ReadyAndShrunk(worlds[k].cluster, r)
  {
    var w := worlds[k];
    RunInv(worlds, actions, k);
    SteadyRun(worlds, actions, k, primary);
    VerdictMeaning(w, actions[k]);
    assert 0 <= o < w.cluster.replicas;
    forall r | r != o && Deletions(w, r) > 0 ensures ReadyAndShrunk(w.cluster, r) {
      assert ReplacedFromTheTop(w, primary, r);
      assert r > o;
      ReplacedIsExpected(worlds, actions, k, r);
    }
  }

  /** Only expected pods are ever replaced. */
  lemma {:induction false} ReplacedIsExpected(worlds: seq<World>, actions: seq<Action>, k: nat, r: int)
    requires IsRun(worlds, actions) && k < |worlds| && Deletions(worlds[k], r) > 0
    ensures 0 <= r < worlds[k].cluster.replicas
  {
    if k == 0 {
    } else {
      RunInv(worlds, actions, k - 1);
      if Deletions(worlds[k - 1], r) > 0 {
        ReplacedIsExpected(worlds, actions, k - 1, r);
      }
    }
  }

  // ---------------------------------------------------------------- when a second member can be out

  /** Another member the machine replaced is out: not ready on a small claim. */
  predicate OtherOut(w: World, o: int, r: int) {
    r != o && Deletions(w, r) > 0 && !ReadyAndShrunk(w.cluster, r)
  }

  /** When `r` was replaced, `o` was the tracked primary and so left alone. */
  ghost predicate PrimaryWhenReplaced(worlds: seq<World>, k: nat, r: int, o: int)
    requires k < |worlds|
  {
    exists j :: 0 <= j < k && worlds[j].state.primary == Some(o) && ReplacedAt(worlds, j, r)
  }

  ghost predicate ReplacedAt(worlds: seq<World>, j: nat, r: int)
    requires j + 1 < |worlds|
  {
    worlds[j].state.phase == Secondaries && Deletions(worlds[j], r) == 0 && Deletions(worlds[j + 1], r) > 0
  }

  /** A pod replaced below one that is still oversized: that one was the primary then. */
  lemma {:induction false} SkippedAsPrimary(worlds: seq<World>, actions: seq<Action>, k: nat, r: int, o: int)
    requires IsRun(worlds, actions) && k < |worlds| && Rank(worlds[k].state.phase) <= 1
    requires Deletions(worlds[k], r) > 0 && r < o < worlds[k].cluster.replicas && !Shrunk(worlds[k].cluster, o)
    ensures PrimaryWhenReplaced(worlds, k, r, o)
  {
    var w, a := worlds[k - 1], actions[k - 1];
    RunInv(worlds, actions, k - 1);
    PhaseStep(w, a);
    if Shrunk(w.cluster, o) {
      ShrunkStays(w, a, o);
    }
    if Deletions(w, r) > 0 {
      SkippedAsPrimary(worlds, actions, k - 1, r, o);
      var j :| 0 <= j < k - 1 && worlds[j].state.primary == Some(o) && ReplacedAt(worlds, j, r);
    } else {
      ReplacedBelow(w, a, r, o);
      assert ReplacedAt(worlds, k - 1, r);
    }
  }

  lemma ReplacedBelow(w: World, a: Action, r: int, o: int)
    requires Inv(w) && Enabled(w, a) && Rank(w.state.phase) <= 1
    requires Deletions(w, r) == 0 && Deletions(Step(w, a), r) > 0
    requires r < o < w.cluster.replicas && !Shrunk(w.cluster, o)
    ensures w.state.phase == Secondaries && w.state.primary == Some(o)
  {
    VerdictMeaning(w, a);
    assert Handled(w, o) && 0 <= r;
    if ReadyAndShrunk(w.cluster, o) {
      ReadyMeansShrunk(w, o);
    }
  }

  /** A member the walk does not wait for when it comes to replace `o`. */
  ghost predicate NotWaitedFor(worlds: seq<World>, k: nat, o: int, r: int)
    requires k < |worlds|
  {
    || r in worlds[k].state.processed
    || worlds[k].state.primary == Some(r)
    || (r < o && PrimaryWhenReplaced(worlds, k, r, o))
  }

  /** Were `r` to lose its readiness first, the pass would replace `o` all the same. */
  ghost predicate ToleratesUnready(w: World, a: Action, o: int, r: int)
    requires a.Process? && r in w.cluster.pods
  {
    VerdictOf(Step(w, PodReady(r, false)), a) == Replace(o)
  }

  /** Were the pod of `r` to go missing first, the pass would replace `o` all the same. */
  ghost predicate ToleratesMissing(w: World, a: Action, o: int, r: int)
    requires a.Process? && r in w.cluster.pods
  {
    VerdictOf(Step(w, PodGone(r)), a) == Replace(o)
  }

  lemma {:induction false} ListingOfKeys(pods: map<int, Pod>, pods': map<int, Pod>, n: nat)
    requires pods.Keys == pods'.Keys
    ensures Listing(pods, n) == Listing(pods', n)
  {
    if n == 0 {
    } else {
      ListingOfKeys(pods, pods', n - 1);
      assert n - 1 in pods <==> n - 1 in pods.Keys;
      assert n - 1 in pods' <==> n - 1 in pods'.Keys;
    }
  }

  /** The walk that replaces `o` waits for the pods it has passed by then, and for no other. */
  lemma {:induction false} WalkUnready(
    c: Cluster, c': Cluster, st: Shrink, member: bool, list: seq<int>, processed: seq<int>, answers: map<int, Answer>,
    o: int, r: int)
    requires Walk(c, st, member, list, processed, answers) == Replace(o) && r != o && r in c.pods
    requires c' == c.(pods := c.pods[r := c.pods[r].(ready := false)])
    requires forall i, j :: 0 <= i < j < |list| ==> list[i] > list[j]
    ensures Walk(c', st, member, list, processed, answers) == Replace(o) <==>
            r in processed || OutOfPhase(st, r) || r < o || r !in list
    decreases |list|
  {
    var first, rest := list[0], list[1..];
    assert forall x :: x in list <==> x == first || x in rest;
    if OutOfPhase(st, first) || first in processed {
      WalkUnready(c, c', st, member, rest, processed, answers, o, r);
    } else if c.claims[first].request > c.target {
      assert first == o;
    } else {
      WalkReplace(c, st, member, rest, processed + [first], answers);
      assert o in rest && o < first;
      if first != r {
        WalkUnready(c, c', st, member, rest, processed + [first], answers, o, r);
        assert r in processed + [first] <==> r in processed;
      }
    }
  }

  lemma UnreadyExactly(w: World, a: Action, o: int, r: int)
    requires Inv(w) && a.Process? && w.state.phase == Secondaries && VerdictOf(w, a) == Replace(o)
    requires r != o && r in w.cluster.pods
    ensures ToleratesUnready(w, a, o, r) <==> r in w.state.processed || w.state.primary == Some(r) || r < o
  {
    var c, c' := w.cluster, Step(w, PodReady(r, false)).cluster;
    ListingOfKeys(c.pods, c'.pods, c.replicas);
    ListingOrdered(c.pods, c.replicas);
    ListingPresent(c.pods, c.replicas, r);
    WalkUnready(c, c', w.state, a.member, Listing(c.pods, c.replicas), w.state.processed, a.answers, o, r);
  }

  /** A listing without one pod. */
  function Removed(list: seq<int>, r: int): seq<int> {
    if list == [] then [] else (if list[0] == r then [] else [list[0]]) + Removed(list[1..], r)
  }

  lemma {:induction false} ListingWithout(pods: map<int, Pod>, r: int, n: nat)
    ensures Listing(pods - {r}, n) == Removed(Listing(pods, n), r)
  {
    if n == 0 {
    } else {
      ListingWithout(pods, r, n - 1);
      if n - 1 in pods {
        RemovedFirst(n - 1, Listing(pods, n - 1), r);
      } else {
        assert Listing(pods, n) == Listing(pods, n - 1) && Listing(pods - {r}, n) == Listing(pods - {r}, n - 1);
      }
    }
  }

  lemma RemovedFirst(first: int, rest: seq<int>, r: int)
    ensures Removed([first] + rest, r) == (if first == r then [] else [first]) + Removed(rest, r)
  {
    assert ([first] + rest)[1..] == rest;
  }

  /** A pod the walk skips may as well not be listed. */
  lemma {:induction false} WalkMissing(
    c: Cluster, c': Cluster, st: Shrink, member: bool, list: seq<int>, processed: seq<int>, answers: map<int, Answer>,
    r: int)
    requires c' == c.(pods := c.pods - {r}) && (OutOfPhase(st, r) || r in processed)
    ensures Walk(c', st, member, Removed(list, r), processed, answers) == Walk(c, st, member, list, processed, answers)
    decreases |list|
  {
    if list == [] {
    } else {
      var first, rest := list[0], list[1..];
      if first == r {
        WalkMissing(c, c', st, member, rest, processed, answers, r);
        assert Removed(list, r) == Removed(rest, r);
      } else {
        assert Removed(list, r)[0] == first && Removed(list, r)[1..] == Removed(rest, r);
        WalkMissing(c, c', st, member, rest, processed, answers, r);
        WalkMissing(c, c', st, member, rest, processed + [first], answers, r);
      }
    }
  }

  lemma MissingExactly(w: World, a: Action, o: int, r: int)
    requires Inv(w) && a.Process? && w.state.phase == Secondaries && VerdictOf(w, a) == Replace(o)
    requires r != o && r in w.cluster.pods
    ensures ToleratesMissing(w, a, o, r) <==> r in w.state.processed || w.state.primary == Some(r)
  {
    var c, c', st := w.cluster, Step(w, PodGone(r)).cluster, w.state;
    if OutOfPhase(st, r) || r in st.processed {
      ListingWithout(c.pods, r, c.replicas);
      WalkMissing(c, c', st, a.member, Listing(c.pods, c.replicas), st.processed, a.answers, r);
      assert NoneMissing(c', st);
    } else {
      assert 0 <= r < c.replicas && r !in c'.pods;
      assert !NoneMissing(c', st);
    }
  }

  /**
   In every run, when the secondaries phase decides to replace a pod and `r` is another member it
   has replaced: if `r` is out at that moment, the walk does not wait for it, being recorded as
   processed, the tracked primary, or below a pod that was the primary when `r` was replaced. And
   any such member may be out: losing its readiness would not change the decision, exactly for
   these; nor would losing its pod, exactly for the first two kinds.
   */
  lemma SecondOutExactly(worlds: seq<World>, actions: seq<Action>, k: nat, o: int, r: int)
    requires IsRun(worlds, actions) && k < |actions| && worlds[k].state.phase == Secondaries
    requires actions[k].Process? && VerdictOf(worlds[k], actions[k]) == Replace(o)
    requires r != o && Deletions(worlds[k], r) > 0
    ensures OtherOut(worlds[k], o, r) ==> NotWaitedFor(worlds, k, o, r)
    ensures r in worlds[k].cluster.pods ==>
              (ToleratesUnready(worlds[k], actions[k], o, r) <==> NotWaitedFor(worlds, k, o, r))
    ensures r in worlds[k].cluster.pods ==>
              (ToleratesMissing(worlds[k], actions[k], o, r) <==>
               r in worlds[k].state.processed || worlds[k].state.primary == Some(r))
  {
    var w := worlds[k];
    RunInv(worlds, actions, k);
    VerdictMeaning(w, actions[k]);
    ReplacedIsExpected(worlds, actions, k, r);
    if r < o {
      SkippedAsPrimary(worlds, actions, k, r, o);
    }
    if r in w.cluster.pods {
      UnreadyExactly(w, actions[k], o, r);
      MissingExactly(w, actions[k], o, r);
    }
  }
}
