/**
 What one pass of the shrink machine leaves behind, case by case, and that the machine never gets
 stuck: wherever a run has got to, some continuation of it shrinks every claim.
 */
module ShrinkProgress {
  import opened Options
  import opened VolumeShrink

  // ---------------------------------------------------------------- one pass

  /** The objects that are left when the replacement of `o` got as far as `deletes` says. */
  predicate Replaced(c: Cluster, o: int, deletes: Deletes, c': Cluster) {
    && c'.replicas == c.replicas && c'.target == c.target
    && c'.claims.Keys == c.claims.Keys && c'.pods.Keys == c.pods.Keys
    && (forall q :: q in c.claims ==>
          && c'.claims[q].request == c.claims[q].request
          && c'.claims[q].terminating == (c.claims[q].terminating || (q == o && deletes != NoDelete)))
    && (forall q :: q in c.pods ==>
          && c'.pods[q].ready == c.pods[q].ready
          && c'.pods[q].terminating == (c.pods[q].terminating || (q == o && deletes == ClaimAndPod)))
  }

  /** The pass goes past every pod, so the phase is over; the secondaries phase has recorded all but the primary. */
  predicate EndsPhase(w: World, stored: bool, w': World) {
    && w'.cluster == w.cluster
    && (!stored ==> w'.state == w.state)
    && (stored && w.state.phase == Primary ==> w'.state == w.state.(phase := Cleared))
    && (stored && w.state.phase == Secondaries ==>
          && w'.state.phase == Stepdown && w'.state.primary == w.state.primary
          && forall q :: 0 <= q < w.cluster.replicas && w.state.primary != Some(q) ==> q in w'.state.processed)
  }

  /** The pass stops at pod `o`: it waits for it, replaces it, or finds it elected. */
  predicate StopsPass(w: World, a: Action, o: int, w': World)
    requires a.Process?
  {
    var c := w.cluster;
    if o in c.claims && c.claims[o].request > c.target then
      Replaced(c, o, a.deletes, w'.cluster) && w'.state == w.state
    else if ReadyAndShrunk(c, o) && Ask(a.answers, o) == IsPrimary && w.state.phase == Secondaries then
      && w'.cluster == c
      && (!a.stored ==> w'.state == w.state)
      && (a.stored ==>
            && w'.state.phase == Secondaries && w'.state.primary == Some(o)
            && Recorded(c, w.state, o, w'.state.processed)
            && (forall q :: q in w.state.processed ==> q in w'.state.processed)
            && (forall q :: q in w'.state.processed ==>
                  q in w.state.processed || (ReadyAndShrunk(c, q) && Ask(a.answers, q) == IsSecondary)))
    else
      w'.cluster == c && w'.state == w.state
  }

  /**
   One pass, from pods, claims and answers alone: blocked or with a pod missing it does nothing;
   otherwise the highest pod it does not go past decides, and with none the phase ends.
   */
  lemma PassExactly(w: World, a: Action)
    requires Inv(w) && a.Process? && Enabled(w, a)
    ensures var w', c, st := Step(w, a), w.cluster, w.state;
            if a.blocked || !NoneMissing(c, st) then w'.cluster == c && w'.state == st
            else if forall o :: o in c.pods ==> Passes(c, st, a.member, st.processed, a.answers, o)
            then EndsPhase(w, a.stored, w')
            else exists o :: o in c.pods && HighestStop(c, st, a.member, a.answers, o) && StopsPass(w, a, o, w')
  {
    var w', c, st := Step(w, a), w.cluster, w.state;
    var v := VerdictOf(w, a);
    DecidedExactly(c, st, a.member, a.blocked, a.answers);
    if a.blocked || !NoneMissing(c, st) {
    } else if forall o :: o in c.pods ==> Passes(c, st, a.member, st.processed, a.answers, o) {
      VerdictMeaning(w, a);
    } else {
      var o :| && o in c.pods && HighestStop(c, st, a.member, a.answers, o) && StopsAt(c, st, o, a.answers, v)
               && (v.Elected? ==> Recorded(c, st, o, v.processed));
      StopStores(w, a, o);
    }
  }

  lemma StopStores(w: World, a: Action, o: int)
    requires a.Process? && Enabled(w, a) && o in w.cluster.pods
    requires !Passes(w.cluster, w.state, a.member, w.state.processed, a.answers, o)
    requires var v := VerdictOf(w, a);
             && StopsAt(w.cluster, w.state, o, a.answers, v)
             && (v.Elected? ==> Recorded(w.cluster, w.state, o, v.processed))
    ensures StopsPass(w, a, o, Step(w, a))
  {
    if VerdictOf(w, a).Elected? {
      ElectedAnswers(w, a);
    }
  }

  lemma ElectedAnswers(w: World, a: Action)
    requires a.Process? && Enabled(w, a) && VerdictOf(w, a).Elected?
    ensures var v := VerdictOf(w, a);
            && Ask(a.answers, v.o) == IsPrimary
            && (forall q :: q in w.state.processed ==> q in v.processed)
            && forall q :: q in v.processed ==>
                 q in w.state.processed || (ReadyAndShrunk(w.cluster, q) && Ask(a.answers, q) == IsSecondary)
  {
    var c, st := w.cluster, w.state;
    WalkElected(c, st, a.member, Listing(c.pods, c.replicas), st.processed, a.answers);
  }

  // ---------------------------------------------------------------- continuations

  ghost predicate Leads(w: World, actions: seq<Action>, w': World)
    decreases |actions|
  {
    if actions == [] then w == w'
    else Enabled(w, actions[0]) && Leads(Step(w, actions[0]), actions[1..], w')
  }

  lemma {:induction false} Joined(w: World, first: seq<Action>, mid: World, second: seq<Action>, w': World)
    requires Leads(w, first, mid) && Leads(mid, second, w')
    ensures Leads(w, first + second, w')
    decreases |first|
  {
    if first == [] {
      assert first + second == second;
    } else {
      Joined(Step(w, first[0]), first[1..], mid, second, w');
      assert (first + second)[1..] == first[1..] + second;
    }
  }

  lemma {:induction false} LeadsInv(w: World, actions: seq<Action>, w': World)
    requires Inv(w) && Leads(w, actions, w')
    ensures Inv(w')
    decreases |actions|
  {
    if actions != [] {
      StepInv(w, actions[0]);
      LeadsInv(Step(w, actions[0]), actions[1..], w');
    }
  }

  lemma One(w: World, a: Action)
    requires Enabled(w, a)
    ensures Leads(w, [a], Step(w, a))
  {
    assert [a][1..] == [];
  }

  /** The pod is there and ready, on a claim nobody is deleting. */
  predicate Settled(c: Cluster, o: int) {
    o in c.pods && c.pods[o].ready && o in c.claims && !c.claims[o].terminating
  }

  /** Only `o` was touched, and its claim stays as it was or has the target size. */
  ghost predicate OnlyAt(w: World, o: int, w': World) {
    && w'.state == w.state && w'.cluster.replicas == w.cluster.replicas && w'.cluster.target == w.cluster.target
    && (forall q :: q != o ==> (q in w'.cluster.pods <==> q in w.cluster.pods))
    && (forall q :: q != o ==> (q in w'.cluster.claims <==> q in w.cluster.claims))
    && (forall q :: q != o && q in w.cluster.pods ==> w'.cluster.pods[q] == w.cluster.pods[q])
    && (forall q :: q != o && q in w.cluster.claims ==> w'.cluster.claims[q] == w.cluster.claims[q])
  }

  lemma GetsAPod(w: World, o: int) returns (actions: seq<Action>, w': World)
    requires 0 <= o < w.cluster.replicas
    ensures Leads(w, actions, w') && OnlyAt(w, o, w') && w'.cluster.claims == w.cluster.claims
    ensures o in w'.cluster.pods && w'.cluster.pods[o].ready
  {
    actions, w' := [], w;
    if o !in w.cluster.pods {
      One(w, PodCreated(o));
      actions, w' := [PodCreated(o)], Step(w, PodCreated(o));
    }
    One(w', PodReady(o, true));
    Joined(w, actions, w', [PodReady(o, true)], Step(w', PodReady(o, true)));
    actions, w' := actions + [PodReady(o, true)], Step(w', PodReady(o, true));
  }

  lemma GetsAClaim(w: World, o: int) returns (actions: seq<Action>, w': World)
    requires 0 <= o < w.cluster.replicas
    ensures Leads(w, actions, w') && OnlyAt(w, o, w') && w'.cluster.pods == w.cluster.pods
    ensures o in w'.cluster.claims && !w'.cluster.claims[o].terminating
    ensures || w'.cluster.claims[o].request <= w.cluster.target
            || (o in w.cluster.claims && !w.cluster.claims[o].terminating)
  {
    actions, w' := [], w;
    if o in w.cluster.claims && w.cluster.claims[o].terminating {
      One(w, ClaimGone(o));
      actions, w' := [ClaimGone(o)], Step(w, ClaimGone(o));
    }
    if o !in w'.cluster.claims {
      One(w', ClaimCreated(o));
      Joined(w, actions, w', [ClaimCreated(o)], Step(w', ClaimCreated(o)));
      actions, w' := actions + [ClaimCreated(o)], Step(w', ClaimCreated(o));
    }
  }

  /** The kubelet and the StatefulSet controller settle the first `n` pods. */
  lemma {:induction false} Settles(w: World, n: nat) returns (actions: seq<Action>, w': World)
    requires n <= w.cluster.replicas
    ensures Leads(w, actions, w') && w'.state == w.state
    ensures w'.cluster.replicas == w.cluster.replicas && w'.cluster.target == w.cluster.target
    ensures forall o :: 0 <= o < n ==> Settled(w'.cluster, o)
    decreases n
  {
    if n == 0 {
      actions, w' := [], w;
    } else {
      var first, w1 := Settles(w, n - 1);
      var second, w2 := GetsAPod(w1, n - 1);
      var third, w3 := GetsAClaim(w2, n - 1);
      Joined(w, first, w1, second, w2);
      Joined(w, first + second, w2, third, w3);
      actions, w' := first + second + third, w3;
      forall o | 0 <= o < n ensures Settled(w3.cluster, o) {
        if o < n - 1 {
          assert Settled(w1.cluster, o);
        }
      }
    }
  }

  // ---------------------------------------------------------------- the phases end

  predicate AllSettled(c: Cluster) {
    forall o :: 0 <= o < c.replicas ==> Settled(c, o)
  }

  /** The expected pods on claims above the target. */
  ghost function Large(c: Cluster): set<int> {
    set o | 0 <= o < c.replicas && o in c.claims && c.claims[o].request > c.target
  }

  /** Every member answers that it is a secondary. */
  function Secondary(pods: map<int, Pod>): map<int, Answer> {
    map o | o in pods :: IsSecondary
  }

  /** A pass over settled pods ends the phase or replaces one on an oversized claim. */
  lemma SettledPass(w: World, member: bool) returns (o: int)
    requires Inv(w) && AllSettled(w.cluster) && (w.state.phase == Secondaries || w.state.phase == Primary)
    ensures var a := Process(member, false, Secondary(w.cluster.pods), ClaimAndPod, true); var w' := Step(w, a);
            || EndsPhase(w, true, w')
            || (o in Large(w.cluster) && Replaced(w.cluster, o, ClaimAndPod, w'.cluster) && w'.state == w.state)
  {
    var c, st := w.cluster, w.state;
    var a := Process(member, false, Secondary(c.pods), ClaimAndPod, true);
    assert NoneMissing(c, st) by {
      forall q | 0 <= q < c.replicas ensures q in c.pods {
        assert Settled(c, q);
      }
    }
    PassExactly(w, a);
    if forall q :: q in c.pods ==> Passes(c, st, member, st.processed, a.answers, q) {
      o := 0;
    } else {
      o :| o in c.pods && HighestStop(c, st, member, a.answers, o) && StopsPass(w, a, o, Step(w, a));
      assert Settled(c, o) && Ask(a.answers, o) == IsSecondary;
    }
  }

  /** The replaced pod and its claim come back, the claim at the target size. */
  lemma ComesBack(w: World, o: int) returns (actions: seq<Action>, w': World)
    requires 0 <= o < w.cluster.replicas && o in w.cluster.pods
    requires o in w.cluster.claims && w.cluster.claims[o].terminating
    ensures Leads(w, actions, w') && OnlyAt(w, o, w') && Settled(w'.cluster, o)
    ensures w'.cluster.claims[o].request <= w.cluster.target
  {
    One(w, PodGone(o));
    var w1 := Step(w, PodGone(o));
    var second, w2 := GetsAPod(w1, o);
    var third, w3 := GetsAClaim(w2, o);
    Joined(w, [PodGone(o)], w1, second, w2);
    Joined(w, [PodGone(o)] + second, w2, third, w3);
    actions, w' := [PodGone(o)] + second + third, w3;
  }

  /** From settled pods, as many passes as there are oversized claims end the phase. */
  lemma {:induction false} PhaseEnds(w: World, member: bool) returns (actions: seq<Action>, w': World)
    requires Inv(w) && AllSettled(w.cluster) && (w.state.phase == Secondaries || w.state.phase == Primary)
    ensures Leads(w, actions, w')
    ensures w'.state.phase == if w.state.phase == Secondaries then Stepdown else Cleared
    decreases |Large(w.cluster)|
  {
    var a := Process(member, false, Secondary(w.cluster.pods), ClaimAndPod, true);
    var o := SettledPass(w, member);
    One(w, a);
    var w1 := Step(w, a);
    StepInv(w, a);
    if EndsPhase(w, true, w1) {
      actions, w' := [a], w1;
    } else {
      assert Settled(w.cluster, o);
      var back, w2 := ComesBack(w1, o);
      Joined(w, [a], w1, back, w2);
      LeadsInv(w1, back, w2);
      OneLess(w, w1, w2, o);
      var rest, w3 := PhaseEnds(w2, member);
      Joined(w, [a] + back, w2, rest, w3);
      actions, w' := [a] + back + rest, w3;
    }
  }

  lemma OneLess(w: World, w1: World, w2: World, o: int)
    requires AllSettled(w.cluster) && o in Large(w.cluster) && Replaced(w.cluster, o, ClaimAndPod, w1.cluster)
    requires OnlyAt(w1, o, w2) && Settled(w2.cluster, o) && w2.cluster.claims[o].request <= w1.cluster.target
    ensures AllSettled(w2.cluster) && |Large(w2.cluster)| < |Large(w.cluster)|
  {
    forall q | 0 <= q < w2.cluster.replicas ensures Settled(w2.cluster, q) {
      assert Settled(w.cluster, q);
    }
    assert Large(w2.cluster) == Large(w.cluster) - {o};
  }

  /** Wherever a run has got to, there is a continuation after which the state is cleared and every claim shrunk. */
  lemma {:induction false} CanAlwaysComplete(w: World, member: bool) returns (actions: seq<Action>, w': World)
    requires Inv(w)
    ensures Leads(w, actions, w') && w'.state.phase == Cleared
    ensures forall o :: 0 <= o < w'.cluster.replicas ==> Shrunk(w'.cluster, o)
    decreases 4 - Rank(w.state.phase)
  {
    var next, w1 := PhaseLeft(w, member);
    LeadsInv(w, next, w1);
    if w.state.phase == Cleared {
      actions, w' := [], w;
    } else {
      var rest, w2 := CanAlwaysComplete(w1, member);
      Joined(w, next, w1, rest, w2);
      actions, w' := next + rest, w2;
    }
    assert Inv(w') by { LeadsInv(w, actions, w'); }
    forall o | 0 <= o < w'.cluster.replicas ensures Shrunk(w'.cluster, o) {
      assert PhaseProgress(w', o);
    }
  }

  /** Every phase but the last can be left for the next. */
  lemma PhaseLeft(w: World, member: bool) returns (actions: seq<Action>, w': World)
    requires Inv(w)
    ensures Leads(w, actions, w')
    ensures w.state.phase != Cleared ==> Rank(w'.state.phase) == Rank(w.state.phase) + 1
  {
    match w.state.phase {
      case NotStarted =>
        One(w, Preflight(None));
        actions, w' := [Preflight(None)], Step(w, Preflight(None));
      case Stepdown =>
        var a := StepDown(true, SteppedDown, true);
        One(w, a);
        actions, w' := [a], Step(w, a);
      case Cleared =>
        actions, w' := [], w;
      case _ =>
        var settle, w1 := Settles(w, w.cluster.replicas);
        LeadsInv(w, settle, w1);
        var rest, w2 := PhaseEnds(w1, member);
        Joined(w, settle, w1, rest, w2);
        actions, w' := settle + rest, w2;
    }
  }
}
