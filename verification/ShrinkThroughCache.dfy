/**
 The PVC shrink machine when its lists of pods and claims come from a cache: each pass sees the
 pods as they were at one earlier point and the claims as they were at another, and deletes by
 name. What is left of its guarantees, and exactly when it deletes a claim it should keep.
 */
module ShrinkThroughCache {
  import opened Options
  import S = VolumeShrink

  /** Every store so far, the last one current, and the shrink state. */
  datatype World = World(history: seq<S.Cluster>, state: S.Shrink)

  predicate WellFormed(w: World) {
    |w.history| > 0
  }

  function Now(w: World): S.Cluster
    requires WellFormed(w)
  {
    w.history[|w.history| - 1]
  }

  /** The two lists a pass reads, and how its calls go. */
  datatype Pass = Pass(
    podRead: nat, claimRead: nat, member: bool, blocked: bool, answers: map<int, S.Answer>, deletes: S.Deletes)

  datatype Action =
    | Start(primary: Option<int>)
    | Process(pass: Pass, stored: bool)
    | StepDown(podRead: nat, needsStepdown: bool, answer: S.StepdownAnswer, stored: bool)
    | ClaimGone(o: int)
    | ClaimCreated(o: int)
    | PodGone(o: int)
    | PodCreated(o: int)
    | PodReady(o: int, ready: bool)

  predicate Enabled(w: World, a: Action) {
    && WellFormed(w)
    && match a
       case Start(_) => w.state.phase == S.NotStarted
       case Process(pass, _) =>
         && (w.state.phase == S.Secondaries || w.state.phase == S.Primary)
         && pass.podRead < |w.history| && pass.claimRead < |w.history|
       case StepDown(podRead, _, _, _) => w.state.phase == S.Stepdown && podRead < |w.history|
       case ClaimGone(o) => o in Now(w).claims && Now(w).claims[o].terminating
       case ClaimCreated(o) => 0 <= o < Now(w).replicas && o !in Now(w).claims
       case PodGone(o) => o in Now(w).pods
       case PodCreated(o) => 0 <= o < Now(w).replicas && o !in Now(w).pods
       case PodReady(o, _) => o in Now(w).pods
  }

  /** The cluster as the pass sees it. */
  function View(w: World, pass: Pass): S.Cluster
    requires WellFormed(w) && pass.podRead < |w.history| && pass.claimRead < |w.history|
  {
    Now(w).(pods := w.history[pass.podRead].pods, claims := w.history[pass.claimRead].claims)
  }

  function VerdictOf(w: World, pass: Pass): S.Verdict
    requires WellFormed(w) && pass.podRead < |w.history| && pass.claimRead < |w.history|
  {
    S.Decide(View(w, pass), w.state, pass.member, pass.blocked, pass.answers)
  }

  /** The two delete calls, by name: an object that is not there is no error. */
  function DeletedByName(c: S.Cluster, o: int, deletes: S.Deletes): S.Cluster {
    if deletes == S.NoDelete then c
    else
      var claims := if o in c.claims then c.claims[o := c.claims[o].(terminating := true)] else c.claims;
      if deletes == S.ClaimAndPod && o in c.pods
      then c.(claims := claims, pods := c.pods[o := c.pods[o].(terminating := true)])
      else c.(claims := claims)
  }

  function NextCluster(w: World, a: Action): S.Cluster
    requires Enabled(w, a)
  {
    var c := Now(w);
    match a
    case Start(_) => c
    case Process(pass, _) =>
      var v := VerdictOf(w, pass);
      if v.Replace? then DeletedByName(c, v.o, pass.deletes) else c
    case StepDown(_, _, _, _) => c
    case ClaimGone(o) => c.(claims := c.claims - {o})
    case ClaimCreated(o) => c.(claims := c.claims[o := S.Claim(c.target, false)])
    case PodGone(o) => c.(pods := c.pods - {o})
    case PodCreated(o) => c.(pods := c.pods[o := S.Pod(false, false)])
    case PodReady(o, ready) => c.(pods := c.pods[o := c.pods[o].(ready := ready)])
  }

  function NextState(w: World, a: Action): S.Shrink
    requires Enabled(w, a)
  {
    match a
    case Start(primary) => S.Shrink(S.Secondaries, primary, [])
    case Process(pass, stored) => if stored then S.ProcessState(w.state, VerdictOf(w, pass)) else w.state
    case StepDown(podRead, needsStepdown, answer, stored) =>
      if stored then S.StepdownState(w.history[podRead], w.state, needsStepdown, answer) else w.state
    case _ => w.state
  }

  function Step(w: World, a: Action): (w': World)
    requires Enabled(w, a)
    ensures WellFormed(w')
  {
    World(w.history + [NextCluster(w, a)], NextState(w, a))
  }

  /** Before the shrink: one store, no claim going away. */
  predicate Initial(w: World) {
    && |w.history| == 1 && w.state == S.Shrink(S.NotStarted, None, [])
    && forall o :: o in w.history[0].claims ==> !w.history[0].claims[o].terminating
  }

  ghost predicate IsRun(worlds: seq<World>, actions: seq<Action>) {
    && |worlds| == |actions| + 1
    && Initial(worlds[0])
    && forall i :: 0 <= i < |actions| ==> Enabled(worlds[i], actions[i]) && worlds[i + 1] == Step(worlds[i], actions[i])
  }

  // ---------------------------------------------------------------- what the history remembers

  /** There is no claim above the target under this name. */
  predicate NotLarge(c: S.Cluster, o: int) {
    o in c.claims ==> c.claims[o].request <= c.target
  }

  /** From one store to the next: a claim keeps its request as long as it is there, and a new one is small. */
  predicate Succeeds(c: S.Cluster, c': S.Cluster) {
    && c'.replicas == c.replicas && c'.target == c.target
    && (forall o :: o in c'.claims ==>
          if o in c.claims then c'.claims[o].request == c.claims[o].request else c'.claims[o].request <= c.target)
  }

  ghost predicate HistoryOk(w: World) {
    forall i :: 0 <= i < |w.history| - 1 ==> Succeeds(w.history[i], w.history[i + 1])
  }

  /** What the machine has recorded about a pod is true of the store, however old the lists were. */
  predicate StateOk(c: S.Cluster, st: S.Shrink, o: int) {
    && (o in st.processed ==> NotLarge(c, o))
    && (st.phase == S.Stepdown || st.phase == S.Primary ==> st.primary == Some(o) || o in st.processed)
    && (st.phase == S.Cleared ==> NotLarge(c, o))
  }

  ghost predicate Inv(w: World) {
    && WellFormed(w) && HistoryOk(w)
    && (forall o :: o in w.state.processed ==> NotLarge(Now(w), o))
    && (forall o :: 0 <= o < Now(w).replicas ==> StateOk(Now(w), w.state, o))
  }

  lemma StepSucceeds(w: World, a: Action)
    requires Enabled(w, a)
    ensures Succeeds(Now(w), NextCluster(w, a))
  {
  }

  lemma HistoryStep(w: World, a: Action)
    requires Enabled(w, a) && HistoryOk(w)
    ensures HistoryOk(Step(w, a))
  {
    var h := Step(w, a).history;
    StepSucceeds(w, a);
    forall i | 0 <= i < |h| - 1 ensures Succeeds(h[i], h[i + 1]) {
      if i < |w.history| - 1 {
        assert h[i] == w.history[i] && h[i + 1] == w.history[i + 1];
      }
    }
  }

  /** A name without a large claim never gets one. */
  lemma {:induction false} NotLargeStays(w: World, i: nat, j: nat, o: int)
    requires HistoryOk(w) && i <= j < |w.history| && NotLarge(w.history[i], o)
    ensures NotLarge(w.history[j], o) && w.history[j].target == w.history[i].target
    ensures w.history[j].replicas == w.history[i].replicas
    decreases j
  {
    if i == j {
    } else {
      NotLargeStays(w, i, j - 1, o);
      assert Succeeds(w.history[j - 1], w.history[j]);
    }
  }

  lemma {:induction false} SameSetting(w: World, i: nat, j: nat)
    requires HistoryOk(w) && i <= j < |w.history|
    ensures w.history[j].target == w.history[i].target && w.history[j].replicas == w.history[i].replicas
    decreases j
  {
    if i == j {
    } else {
      SameSetting(w, i, j - 1);
      assert Succeeds(w.history[j - 1], w.history[j]);
    }
  }

  /** A claim that was there all along has the request it had. */
  lemma {:induction false} SameRequest(w: World, i: nat, j: nat, o: int)
    requires HistoryOk(w) && i <= j < |w.history| && forall m :: i <= m <= j ==> o in w.history[m].claims
    ensures w.history[j].claims[o].request == w.history[i].claims[o].request
    decreases j
  {
    if i == j {
    } else {
      SameRequest(w, i, j - 1, o);
      assert Succeeds(w.history[j - 1], w.history[j]);
    }
  }

  /** A claim seen small, in whatever list, is not large now. */
  lemma SeenSmall(w: World, pass: Pass, o: int)
    requires Inv(w) && pass.podRead < |w.history| && pass.claimRead < |w.history|
    requires S.ReadyAndShrunk(View(w, pass), o)
    ensures NotLarge(Now(w), o)
  {
    SameSetting(w, pass.claimRead, |w.history| - 1);
    NotLargeStays(w, pass.claimRead, |w.history| - 1, o);
  }

  // ---------------------------------------------------------------- what a pass records

  /** Every pod a pass adds to its record has no large claim now. */
  lemma RecordedSmall(w: World, pass: Pass)
    requires Inv(w) && Enabled(w, Process(pass, true))
    ensures match VerdictOf(w, pass)
            case Wait => true
            case Replace(_) => true
            case Elected(_, processed) =>
              w.state.phase == S.Secondaries && forall o :: o in processed ==> NotLarge(Now(w), o)
            case Finished(processed) =>
              && (forall o :: o in processed ==> NotLarge(Now(w), o))
              && (forall o :: 0 <= o < Now(w).replicas && !S.OutOfPhase(w.state, o) ==> o in processed)
              && (forall o :: o in w.state.processed ==> o in processed)
  {
    var c, st := View(w, pass), w.state;
    var list := S.Listing(c.pods, c.replicas);
    match VerdictOf(w, pass)
    case Wait =>
    case Replace(_) =>
    case Elected(_, processed) =>
      S.WalkElected(c, st, pass.member, list, st.processed, pass.answers);
      forall o | o in processed ensures NotLarge(Now(w), o) {
        if S.ReadyAndShrunk(c, o) {
          SeenSmall(w, pass, o);
        }
      }
    case Finished(processed) =>
      S.WalkFinished(c, st, pass.member, list, st.processed, pass.answers);
      forall o | o in processed ensures NotLarge(Now(w), o) {
        if S.ReadyAndShrunk(c, o) {
          SeenSmall(w, pass, o);
        }
      }
      forall o | 0 <= o < c.replicas && !S.OutOfPhase(st, o) ensures o in processed {
        S.ListingPresent(c.pods, c.replicas, o);
      }
  }

  lemma StateStep(w: World, a: Action, o: int)
    requires Inv(w) && Enabled(w, a)
    ensures o in NextState(w, a).processed ==> NotLarge(NextCluster(w, a), o)
    ensures 0 <= o < Now(w).replicas ==> StateOk(NextCluster(w, a), NextState(w, a), o)
  {
    StepSucceeds(w, a);
    if a.Process? {
      RecordedSmall(w, a.pass);
    }
    if 0 <= o < Now(w).replicas {
      assert StateOk(Now(w), w.state, o);
    }
  }

  lemma StepInv(w: World, a: Action)
    requires Inv(w) && Enabled(w, a)
    ensures Inv(Step(w, a))
  {
    HistoryStep(w, a);
    StepSucceeds(w, a);
    forall o
      ensures o in NextState(w, a).processed ==> NotLarge(NextCluster(w, a), o)
      ensures 0 <= o < Now(w).replicas ==> StateOk(NextCluster(w, a), NextState(w, a), o)
    {
      StateStep(w, a, o);
    }
  }

  lemma {:induction false} RunInv(worlds: seq<World>, actions: seq<Action>, i: nat)
    requires IsRun(worlds, actions) && i < |worlds|
    ensures Inv(worlds[i])
  {
    if i == 0 {
    } else {
      RunInv(worlds, actions, i - 1);
      StepInv(worlds[i - 1], actions[i - 1]);
    }
  }

  /** However old the lists: once the shrink state is cleared, no expected pod has a claim above the target. */
  lemma ClearedMeansNoneLarge(worlds: seq<World>, actions: seq<Action>, i: nat, o: int)
    requires IsRun(worlds, actions) && i < |worlds| && worlds[i].state.phase == S.Cleared
    ensures WellFormed(worlds[i])
    ensures 0 <= o < Now(worlds[i]).replicas ==> NotLarge(Now(worlds[i]), o)
  {
    RunInv(worlds, actions, i);
    if 0 <= o < Now(worlds[i]).replicas {
      assert StateOk(Now(worlds[i]), worlds[i].state, o);
    }
  }

  // ---------------------------------------------------------------- which claims a pass deletes

  /** The pass deletes the stored claim under this name, not one already going away. */
  predicate Deletes(w: World, pass: Pass, o: int)
    requires Enabled(w, Process(pass, true))
  {
    && VerdictOf(w, pass) == S.Replace(o) && pass.deletes != S.NoDelete
    && o in Now(w).claims && !Now(w).claims[o].terminating
  }

  /** A large claim of this name is gone or on its way out. */
  predicate Doomed(c: S.Cluster, o: int) {
    o in c.claims && c.claims[o].request > c.target ==> c.claims[o].terminating
  }

  lemma {:induction false} DoomedStays(worlds: seq<World>, actions: seq<Action>, i: nat, j: nat, o: int)
    requires IsRun(worlds, actions) && i <= j < |worlds|
    requires WellFormed(worlds[i]) && Doomed(Now(worlds[i]), o)
    ensures WellFormed(worlds[j]) && Doomed(Now(worlds[j]), o)
    decreases j
  {
    if i == j {
    } else {
      DoomedStays(worlds, actions, i, j - 1, o);
      StepSucceeds(worlds[j - 1], actions[j - 1]);
    }
  }

  /** However old the lists: a pod's oversized claim is deleted at most once. */
  lemma LargeDeletedAtMostOnce(worlds: seq<World>, actions: seq<Action>, i: nat, j: nat, o: int)
    requires IsRun(worlds, actions) && i < j < |actions| && actions[i].Process? && actions[j].Process?
    requires Deletes(worlds[i], actions[i].pass, o) && Deletes(worlds[j], actions[j].pass, o)
    ensures Now(worlds[j]).claims[o].request <= Now(worlds[j]).target
  {
    assert worlds[i + 1] == Step(worlds[i], actions[i]);
    assert Doomed(Now(worlds[i + 1]), o);
    DoomedStays(worlds, actions, i + 1, j, o);
  }

  /** The claim the list showed has gone since: some later store is without it. */
  ghost predicate GoneSince(w: World, read: nat, o: int) {
    exists j :: read < j < |w.history| && o !in w.history[j].claims
  }

  /** A pass picks a pod whose claim its list shows above the target. */
  lemma PickedLarge(w: World, pass: Pass)
    requires Inv(w) && Enabled(w, Process(pass, true)) && VerdictOf(w, pass).Replace?
    ensures var o := VerdictOf(w, pass).o;
            o in w.history[pass.claimRead].claims && w.history[pass.claimRead].claims[o].request > Now(w).target
  {
    var c := View(w, pass);
    S.ListingOrdered(c.pods, c.replicas);
    S.WalkReplace(c, w.state, pass.member, S.Listing(c.pods, c.replicas), w.state.processed, pass.answers);
  }

  /**
   In every run, a claim a pass deletes is one it should keep, within the target already, if and
   only if the claim its list showed has gone since and another has taken its place.
   */
  lemma SmallDeletedExactly(worlds: seq<World>, actions: seq<Action>, k: nat, o: int)
    requires IsRun(worlds, actions) && k < |actions| && actions[k].Process?
    requires Deletes(worlds[k], actions[k].pass, o)
    ensures Now(worlds[k]).claims[o].request <= Now(worlds[k]).target <==>
            GoneSince(worlds[k], actions[k].pass.claimRead, o)
  {
    var w, read := worlds[k], actions[k].pass.claimRead;
    var last := |w.history| - 1;
    RunInv(worlds, actions, k);
    PickedLarge(w, actions[k].pass);
    SameSetting(w, read, last);
    if GoneSince(w, read, o) {
      var j :| read < j < |w.history| && o !in w.history[j].claims;
      NotLargeStays(w, j, last, o);
    } else {
      SameRequest(w, read, last, o);
    }
  }

  /** A pass that reads the current claims deletes none it should keep. */
  lemma CurrentListIsSafe(worlds: seq<World>, actions: seq<Action>, k: nat, o: int)
    requires IsRun(worlds, actions) && k < |actions| && actions[k].Process?
    requires Deletes(worlds[k], actions[k].pass, o) && actions[k].pass.claimRead == |worlds[k].history| - 1
    ensures Now(worlds[k]).claims[o].request > Now(worlds[k]).target
  {
    SmallDeletedExactly(worlds, actions, k, o);
  }

  // ---------------------------------------------------------------- a run that deletes a small claim

  lemma Extended(worlds: seq<World>, actions: seq<Action>, a: Action)
    returns (worlds': seq<World>, actions': seq<Action>)
    requires IsRun(worlds, actions) && Enabled(worlds[|actions|], a)
    ensures worlds' == worlds + [Step(worlds[|actions|], a)] && actions' == actions + [a]
    ensures IsRun(worlds', actions')
  {
    worlds', actions' := worlds + [Step(worlds[|actions|], a)], actions + [a];
    forall i | 0 <= i < |actions'|
      ensures Enabled(worlds'[i], actions'[i]) && worlds'[i + 1] == Step(worlds'[i], actions'[i])
    {
      if i < |actions| {
        assert worlds'[i] == worlds[i] && worlds'[i + 1] == worlds[i + 1] && actions'[i] == actions[i];
      }
    }
  }

  /** A set of one secondary, with no primary tracked. */
  function Single(pod: S.Pod, claims: map<int, S.Claim>): S.Cluster {
    S.Cluster(1, 1, map[0 := pod], claims)
  }

  /** Lists that show the pod on its large claim. */
  lemma ReplacesSingle(w: World, pass: Pass)
    requires Enabled(w, Process(pass, true)) && pass.member && !pass.blocked
    requires w.state == S.Shrink(S.Secondaries, None, []) && Now(w).replicas == 1 && Now(w).target == 1
    requires w.history[pass.podRead].pods.Keys == {0} && w.history[pass.claimRead].claims == map[0 := S.Claim(2, false)]
    ensures VerdictOf(w, pass) == S.Replace(0)
  {
    var c := View(w, pass);
    assert S.Listing(c.pods, 0) == [];
    assert S.Listing(c.pods, 1) == [0];
  }

  /**
   The claim of a pod is deleted, goes, and comes back small; the next pass still reads the list
   from before, and deletes the small claim and the pod once more.
   */
  lemma StaleListDeletesSmallClaim() returns (worlds: seq<World>, actions: seq<Action>)
    ensures IsRun(worlds, actions) && |actions| == 5 && actions[1].Process? && actions[4].Process?
    ensures Deletes(worlds[1], actions[1].pass, 0) && Deletes(worlds[4], actions[4].pass, 0)
    ensures Now(worlds[4]).claims[0].request <= Now(worlds[4]).target
  {
    var pass := Pass(0, 0, true, false, map[], S.ClaimAndPod);
    worlds, actions := FirstDeletion(pass);
    worlds, actions := Extended(worlds, actions, ClaimGone(0));
    worlds, actions := Extended(worlds, actions, ClaimCreated(0));
    ReplacesSingle(worlds[4], pass);
    worlds, actions := Extended(worlds, actions, Process(pass, true));
  }

  lemma FirstDeletion(pass: Pass) returns (worlds: seq<World>, actions: seq<Action>)
    requires pass == Pass(0, 0, true, false, map[], S.ClaimAndPod)
    ensures IsRun(worlds, actions) && |actions| == 2 && actions[1] == Process(pass, true)
    ensures Deletes(worlds[1], pass, 0) && worlds[2].state == S.Shrink(S.Secondaries, None, [])
    ensures |worlds[2].history| == 3 && worlds[2].history[0] == Single(S.Pod(true, false), map[0 := S.Claim(2, false)])
    ensures Now(worlds[2]) == Single(S.Pod(true, true), map[0 := S.Claim(2, true)])
  {
    var c0 := Single(S.Pod(true, false), map[0 := S.Claim(2, false)]);
    worlds, actions := [World([c0], S.Shrink(S.NotStarted, None, []))], [];
    worlds, actions := Extended(worlds, actions, Start(None));
    ReplacesSingle(worlds[1], pass);
    worlds, actions := Extended(worlds, actions, Process(pass, true));
  }
}
