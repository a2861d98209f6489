/**
 Shrinks of a three-member set during which an election lets a second member go, one run for each
 kind of member the walk does not wait for.
 */
module VolumeShrinkLimits {
  import opened Options
  import opened VolumeShrink

  /** The listing and the walk of a three-member set with all pods present. */
  lemma ThreeListed(pods: map<int, Pod>)
    requires pods.Keys == {0, 1, 2}
    ensures Listing(pods, 3) == [2, 1, 0]
  {
    assert Listing(pods, 1) == [0] + Listing(pods, 0);
    assert Listing(pods, 2) == [1] + Listing(pods, 1);
    assert Listing(pods, 3) == [2] + Listing(pods, 2);
  }

  /** A three-member set whose pods 2 and 0 are oversized and whose pod 1 is small already. */
  function ThreeMembers(pod2: Pod, claim2: Claim): Cluster {
    Cluster(3, 1, map[0 := Pod(true, false), 1 := Pod(true, false), 2 := pod2],
            map[0 := Claim(2, false), 1 := Claim(1, false), 2 := claim2])
  }

  /** A replaced member is out while another is deleted, in the secondaries phase. */
  ghost predicate SecondGoes(worlds: seq<World>, actions: seq<Action>, k: nat, o: int, r: int)
  {
    && IsRun(worlds, actions) && k < |actions| && worlds[k].state.phase == Secondaries
    && DeletesPod(worlds[k], actions[k], o) && OtherOut(worlds[k], o, r)
  }

  lemma ExtendRun(worlds: seq<World>, actions: seq<Action>, a: Action)
    returns (worlds': seq<World>, actions': seq<Action>)
    requires IsRun(worlds, actions) && Enabled(worlds[|actions|], a)
    ensures worlds' == worlds + [Step(worlds[|actions|], a)] && actions' == actions + [a]
    ensures IsRun(worlds', actions')
  {
    worlds', actions' := worlds + [Step(worlds[|actions|], a)], actions + [a];
    forall i | 0 <= i < |actions'|
      ensures Enabled(worlds'[i], actions'[i]) && worlds'[i + 1] == Step(worlds'[i], actions'[i])
    {
      if i < |actions| {
        assert worlds'[i] == worlds[i] && worlds'[i + 1] == worlds[i + 1] && actions'[i] == actions[i];
      }
    }
  }

  function Tracking0(pod2: Pod, claim2: Claim): World {
    World(ThreeMembers(pod2, claim2), Shrink(Secondaries, Some(0), []), map[2 := 1])
  }

  lemma FirstReplacement(process: Action) returns (worlds: seq<World>, actions: seq<Action>)
    requires process.Process? && process.member && !process.blocked && process.deletes == ClaimAndPod && process.stored
    ensures IsRun(worlds, actions) && |actions| == 2 && worlds[2] == Tracking0(Pod(true, true), Claim(2, true))
  {
    var c0 := ThreeMembers(Pod(true, false), Claim(2, false));
    worlds, actions := [World(c0, Shrink(NotStarted, None, []), map[])], [];
    worlds, actions := ExtendRun(worlds, actions, Preflight(Some(0)));
    ThreeListed(c0.pods);
    worlds, actions := ExtendRun(worlds, actions, process);
    assert worlds[2].cluster.claims == ThreeMembers(Pod(true, true), Claim(2, true)).claims;
    assert worlds[2].cluster.pods == ThreeMembers(Pod(true, true), Claim(2, true)).pods;
  }

  lemma ComesBack(w: World)
    requires w == Tracking0(Pod(true, true), Claim(2, true))
    ensures Enabled(w, ClaimGone(2)) && Enabled(Step(w, ClaimGone(2)), ClaimCreated(2))
    ensures var w' := Step(Step(w, ClaimGone(2)), ClaimCreated(2));
            && w' == Tracking0(Pod(true, true), Claim(1, false)) && Enabled(w', PodGone(2))
            && Enabled(Step(w', PodGone(2)), PodCreated(2))
    ensures var w' := Step(Step(w, ClaimGone(2)), ClaimCreated(2));
            Step(Step(w', PodGone(2)), PodCreated(2)) == Tracking0(Pod(false, false), Claim(1, false))
  {
    var w' := Step(Step(w, ClaimGone(2)), ClaimCreated(2));
    assert w'.cluster.claims == ThreeMembers(Pod(true, true), Claim(1, false)).claims;
    var w'' := Step(Step(w', PodGone(2)), PodCreated(2));
    assert w''.cluster.pods == ThreeMembers(Pod(false, false), Claim(1, false)).pods;
  }

  /** Pod 2 is replaced, comes back on a small claim and becomes ready, with 0 tracked as the primary. */
  lemma ReplacedPodIsBack(process: Action) returns (worlds: seq<World>, actions: seq<Action>)
    requires process.Process? && process.member && !process.blocked && process.deletes == ClaimAndPod && process.stored
    ensures IsRun(worlds, actions) && |actions| == 7
    ensures worlds[7] == Tracking0(Pod(true, false), Claim(1, false))
  {
    worlds, actions := FirstReplacement(process);
    ComesBack(worlds[2]);
    worlds, actions := ExtendRun(worlds, actions, ClaimGone(2));
    worlds, actions := ExtendRun(worlds, actions, ClaimCreated(2));
    worlds, actions := ExtendRun(worlds, actions, PodGone(2));
    worlds, actions := ExtendRun(worlds, actions, PodCreated(2));
    worlds, actions := ExtendRun(worlds, actions, PodReady(2, true));
    assert worlds[7].cluster.pods == ThreeMembers(Pod(true, false), Claim(1, false)).pods;
  }

  /**
   Without a steady primary the guarantee is gone: pod 2 was replaced and recorded as processed
   when pod 1 was elected; it then loses readiness, and the former primary 0 is deleted anyway.
   */
  lemma ElectionLetsASecondMemberGo() returns (worlds: seq<World>, actions: seq<Action>)
    ensures |actions| == 10 && SecondGoes(worlds, actions, 9, 0, 2) && 2 in worlds[9].state.processed
  {
    var answers := map[2 := IsSecondary, 1 := IsPrimary];
    var process := Process(true, false, answers, ClaimAndPod, true);
    worlds, actions := ElectedAndUnready(process);
    FormerPrimaryGoes(worlds[9], process);
    worlds, actions := ExtendRun(worlds, actions, process);
  }

  /** Pod 1 is found elected, and pod 2, recorded as processed, loses its readiness. */
  lemma ElectedAndUnready(process: Action) returns (worlds: seq<World>, actions: seq<Action>)
    requires process == Process(true, false, map[2 := IsSecondary, 1 := IsPrimary], ClaimAndPod, true)
    ensures IsRun(worlds, actions) && |actions| == 9
    ensures worlds[9] ==
            World(ThreeMembers(Pod(false, false), Claim(1, false)), Shrink(Secondaries, Some(1), [2]), map[2 := 1])
  {
    worlds, actions := ReplacedPodIsBack(process);
    ElectionSeen(worlds[7], process);
    worlds, actions := ExtendRun(worlds, actions, process);
    worlds, actions := ExtendRun(worlds, actions, PodReady(2, false));
    assert worlds[9].cluster.pods == ThreeMembers(Pod(false, false), Claim(1, false)).pods;
  }

  /** The walk finds pod 1 elected, having passed pod 2. */
  lemma ElectionSeen(w: World, process: Action)
    requires w == Tracking0(Pod(true, false), Claim(1, false))
    requires process == Process(true, false, map[2 := IsSecondary, 1 := IsPrimary], ClaimAndPod, true)
    ensures VerdictOf(w, process) == Elected(1, [2]) && Enabled(w, process)
  {
    ThreeListed(w.cluster.pods);
    assert [2, 1, 0][1..] == [1, 0] && [1, 0][1..] == [0] && [] + [2] == [2];
    assert Walk(w.cluster, w.state, true, [1, 0], [2], process.answers) == Elected(1, [2]);
  }

  /** With 1 tracked and 2 processed, the walk stops at 0, whatever became of 2. */
  lemma FormerPrimaryGoes(w: World, process: Action)
    requires w ==
             World(ThreeMembers(Pod(false, false), Claim(1, false)), Shrink(Secondaries, Some(1), [2]), map[2 := 1])
    requires process == Process(true, false, map[2 := IsSecondary, 1 := IsPrimary], ClaimAndPod, true)
    ensures VerdictOf(w, process) == Replace(0) && Enabled(w, process)
  {
    ThreeListed(w.cluster.pods);
    assert [2, 1, 0][1..] == [1, 0] && [1, 0][1..] == [0] && [] + [2] == [2];
    assert Walk(w.cluster, w.state, true, [0], [2], process.answers) == Replace(0);
    assert Walk(w.cluster, w.state, true, [1, 0], [2], process.answers) == Replace(0);
  }

  // ---------------------------------------------------------------- the tracked primary

  /** The same start, but pod 2 itself is elected, then loses its readiness, and the former primary 0 is deleted. */
  lemma ElectedMemberLetsASecondGo() returns (worlds: seq<World>, actions: seq<Action>)
    ensures |actions| == 10 && SecondGoes(worlds, actions, 9, 0, 2) && worlds[9].state.primary == Some(2)
  {
    var elect := Process(true, false, map[2 := IsPrimary], ClaimAndPod, true);
    var replace := Process(true, false, map[1 := IsSecondary], ClaimAndPod, true);
    worlds, actions := ElectedThenUnready(elect);
    FormerPrimaryGoesAgain(worlds[9], replace);
    worlds, actions := ExtendRun(worlds, actions, replace);
  }

  lemma ElectedThenUnready(elect: Action) returns (worlds: seq<World>, actions: seq<Action>)
    requires elect == Process(true, false, map[2 := IsPrimary], ClaimAndPod, true)
    ensures IsRun(worlds, actions) && |actions| == 9
    ensures worlds[9] ==
            World(ThreeMembers(Pod(false, false), Claim(1, false)), Shrink(Secondaries, Some(2), []), map[2 := 1])
  {
    worlds, actions := ReplacedPodIsBack(elect);
    Pod2Elected(worlds[7], elect);
    worlds, actions := ExtendRun(worlds, actions, elect);
    worlds, actions := ExtendRun(worlds, actions, PodReady(2, false));
    assert worlds[9].cluster.pods == ThreeMembers(Pod(false, false), Claim(1, false)).pods;
  }

  lemma Pod2Elected(w: World, elect: Action)
    requires w == Tracking0(Pod(true, false), Claim(1, false))
    requires elect == Process(true, false, map[2 := IsPrimary], ClaimAndPod, true)
    ensures VerdictOf(w, elect) == Elected(2, []) && Enabled(w, elect)
  {
    ThreeListed(w.cluster.pods);
  }

  lemma FormerPrimaryGoesAgain(w: World, replace: Action)
    requires w ==
             World(ThreeMembers(Pod(false, false), Claim(1, false)), Shrink(Secondaries, Some(2), []), map[2 := 1])
    requires replace == Process(true, false, map[1 := IsSecondary], ClaimAndPod, true)
    ensures VerdictOf(w, replace) == Replace(0) && Enabled(w, replace)
  {
    ThreeListed(w.cluster.pods);
    assert [2, 1, 0][1..] == [1, 0] && [1, 0][1..] == [0] && [] + [1] == [1];
    assert Walk(w.cluster, w.state, true, [0], [1], replace.answers) == Replace(0);
    assert Walk(w.cluster, w.state, true, [1, 0], [], replace.answers) == Replace(0);
  }

  // ---------------------------------------------------------------- below a former primary

  /** A three-member set whose pods 0 and 1 are oversized; pod 0 and its claim as given. */
  function LowerMembers(pod0: Pod, claim0: Claim): Cluster {
    Cluster(3, 1, map[0 := pod0, 1 := Pod(true, false), 2 := Pod(true, false)],
            map[0 := claim0, 1 := Claim(2, false), 2 := Claim(1, false)])
  }

  /**
   Pod 0 is replaced while 1 is the tracked primary; 2 is elected before 0 is back, and the former
   primary 1, above 0, is deleted while 0 is out.
   */
  lemma FormerPrimaryAboveLetsASecondGo() returns (worlds: seq<World>, actions: seq<Action>)
    ensures |actions| == 4 && SecondGoes(worlds, actions, 3, 1, 0)
    ensures 0 !in worlds[3].state.processed && worlds[3].state.primary == Some(2)
  {
    var process := Process(true, false, map[2 := IsPrimary], ClaimAndPod, true);
    worlds, actions := LowestIsOut();
    TopElected(worlds[2], process);
    worlds, actions := ExtendRun(worlds, actions, process);
    MiddleGoes(worlds[3], process);
    worlds, actions := ExtendRun(worlds, actions, process);
  }

  /** The first half: pod 0 and its claim are on their way out, with 1 tracked. */
  lemma LowestIsOut() returns (worlds: seq<World>, actions: seq<Action>)
    ensures IsRun(worlds, actions) && |actions| == 2
    ensures worlds[2] ==
            World(LowerMembers(Pod(true, true), Claim(2, true)), Shrink(Secondaries, Some(1), []), map[0 := 1])
  {
    var c0 := LowerMembers(Pod(true, false), Claim(2, false));
    var process := Process(true, false, map[2 := IsSecondary], ClaimAndPod, true);
    worlds, actions := [World(c0, Shrink(NotStarted, None, []), map[])], [];
    worlds, actions := ExtendRun(worlds, actions, Preflight(Some(1)));
    LowestGoes(worlds[1], process);
    LowestGoing(worlds[1], process);
    worlds, actions := ExtendRun(worlds, actions, process);
  }

  lemma LowestGoing(w: World, a: Action)
    requires w.cluster == LowerMembers(Pod(true, false), Claim(2, false))
    requires w.state == Shrink(Secondaries, Some(1), []) && w.deletions == map[]
    requires a.Process? && a.deletes == ClaimAndPod && a.stored && Enabled(w, a) && VerdictOf(w, a) == Replace(0)
    ensures Step(w, a) == World(LowerMembers(Pod(true, true), Claim(2, true)), w.state, map[0 := 1])
  {
    var c, c1 := Step(w, a).cluster, LowerMembers(Pod(true, true), Claim(2, true));
    assert c.pods == c1.pods && c.claims == c1.claims;
  }

  lemma LowestGoes(w: World, a: Action)
    requires w.cluster == LowerMembers(Pod(true, false), Claim(2, false))
    requires w.state == Shrink(Secondaries, Some(1), [])
    requires a == Process(true, false, map[2 := IsSecondary], ClaimAndPod, true)
    ensures VerdictOf(w, a) == Replace(0) && Enabled(w, a)
  {
    ThreeListed(w.cluster.pods);
    assert [2, 1, 0][1..] == [1, 0] && [1, 0][1..] == [0] && [] + [2] == [2];
    assert Walk(w.cluster, w.state, true, [0], [2], a.answers) == Replace(0);
    assert Walk(w.cluster, w.state, true, [1, 0], [2], a.answers) == Replace(0);
  }

  lemma TopElected(w: World, a: Action)
    requires w.cluster == LowerMembers(Pod(true, true), Claim(2, true)) && w.state == Shrink(Secondaries, Some(1), [])
    requires a == Process(true, false, map[2 := IsPrimary], ClaimAndPod, true)
    ensures VerdictOf(w, a) == Elected(2, []) && Enabled(w, a)
  {
    ThreeListed(w.cluster.pods);
  }

  lemma MiddleGoes(w: World, a: Action)
    requires w.cluster == LowerMembers(Pod(true, true), Claim(2, true)) && w.state == Shrink(Secondaries, Some(2), [])
    requires a == Process(true, false, map[2 := IsPrimary], ClaimAndPod, true)
    ensures VerdictOf(w, a) == Replace(1) && Enabled(w, a)
  {
    ThreeListed(w.cluster.pods);
    assert [2, 1, 0][1..] == [1, 0];
    assert Walk(w.cluster, w.state, true, [1, 0], [], a.answers) == Replace(1);
  }
}
