/**
 Finalizers of a cluster being deleted: the order they run in and the pass over them. The
 question is when volumes may be deleted before the pods were shut down in order.
 */
module ClusterFinalizers {

  /** The names the controller knows: the three current ones, the two of earlier releases, and anyone else's. */
  datatype Finalizer = DeletePitr | DeletePods | DeletePvc | LegacyPods | LegacyPvc | Foreign(id: int)

  predicate IsPods(f: Finalizer) {
    f == DeletePods || f == LegacyPods
  }

  predicate IsPvc(f: Finalizer) {
    f == DeletePvc || f == LegacyPvc
  }

  /** A finalizer this controller has a handler for. */
  predicate Handled(f: Finalizer) {
    IsPods(f) || IsPvc(f) || f == DeletePitr
  }

  function Order(before117: bool): seq<Finalizer> {
    if before117 then [LegacyPods, LegacyPvc] else [DeletePitr, DeletePods, DeletePvc]
  }

  function Taken(f: Finalizer, finalizers: seq<Finalizer>): seq<Finalizer> {
    if finalizers == [] then []
    else (if finalizers[0] == f then [f] else []) + Taken(f, finalizers[1..])
  }

  function Without(f: Finalizer, finalizers: seq<Finalizer>): seq<Finalizer> {
    if finalizers == [] then []
    else (if finalizers[0] == f then [] else [finalizers[0]]) + Without(f, finalizers[1..])
  }

  function Arranged(order: seq<Finalizer>, finalizers: seq<Finalizer>): seq<Finalizer>
    decreases |order|
  {
    if order == [] then finalizers
    else Taken(order[0], finalizers) + Arranged(order[1..], Without(order[0], finalizers))
  }

  /** The inner loop of GetOrderedFinalizers: move every `f` over, deleting from the list in place. */
  method MoveOver(f: Finalizer, finalizers: seq<Finalizer>, ordered: seq<Finalizer>)
    returns (rest: seq<Finalizer>, ordered': seq<Finalizer>)
    ensures rest == Without(f, finalizers)
    ensures ordered' == ordered + Taken(f, finalizers)
  {
    rest, ordered' := finalizers, ordered;
    var i := 0;
    while i < |rest|
      invariant 0 <= i <= |rest|
      invariant Without(f, finalizers) == rest[..i] + Without(f, rest[i..])
      invariant ordered + Taken(f, finalizers) == ordered' + Taken(f, rest[i..])
      decreases |rest| - i
    {
      NextAt(f, rest, i, ordered');
      if rest[i] == f {
        ordered' := ordered' + [f];
        RemovedAt(rest, i);
        rest := rest[..i] + rest[i + 1..];
      } else {
        i := i + 1;
      }
    }
    assert rest[..i] == rest && rest[i..] == [];
  }

  lemma NextAt(f: Finalizer, s: seq<Finalizer>, i: nat, before: seq<Finalizer>)
    requires i < |s|
    ensures s[i] == f ==>
              && Without(f, s[i..]) == Without(f, s[i + 1..])
              && before + Taken(f, s[i..]) == before + [f] + Taken(f, s[i + 1..])
    ensures s[i] != f ==>
              && s[..i] + Without(f, s[i..]) == s[..i + 1] + Without(f, s[i + 1..])
              && Taken(f, s[i..]) == Taken(f, s[i + 1..])
  {
    assert s[i..][0] == s[i] && s[i..][1..] == s[i + 1..];
    if s[i] == f {
      assert Taken(f, s[i..]) == [f] + Taken(f, s[i + 1..]);
      Regrouped(before, [f], Taken(f, s[i + 1..]));
    } else {
      assert s[..i + 1] == s[..i] + [s[i]];
      Regrouped(s[..i], [s[i]], Without(f, s[i + 1..]));
    }
  }

  lemma Regrouped(a: seq<Finalizer>, b: seq<Finalizer>, c: seq<Finalizer>)
    ensures a + (b + c) == a + b + c
  {
  }

  lemma RemovedAt(s: seq<Finalizer>, i: nat)
    requires i < |s|
    ensures (s[..i] + s[i + 1..])[i..] == s[i + 1..] && (s[..i] + s[i + 1..])[..i] == s[..i]
  {
  }

  /** GetOrderedFinalizers. */
  method GetOrderedFinalizers(finalizers: seq<Finalizer>, before117: bool) returns (ordered: seq<Finalizer>)
    ensures ordered == Arranged(Order(before117), finalizers)
  {
    var order := Order(before117);
    var rest := finalizers;
    ordered := [];
    for i := 0 to |order|
      invariant Arranged(order, finalizers) == ordered + Arranged(order[i..], rest)
    {
      ArrangedAt(order, i, ordered, rest);
      rest, ordered := MoveOver(order[i], rest, ordered);
    }
    ordered := ordered + rest;
  }

  lemma ArrangedAt(order: seq<Finalizer>, i: nat, ordered: seq<Finalizer>, rest: seq<Finalizer>)
    requires i < |order|
    ensures ordered + Arranged(order[i..], rest) ==
            ordered + Taken(order[i], rest) + Arranged(order[i + 1..], Without(order[i], rest))
  {
    assert order[i..][0] == order[i] && order[i..][1..] == order[i + 1..];
    Regrouped(ordered, Taken(order[i], rest), Arranged(order[i + 1..], Without(order[i], rest)));
  }

  /** Nothing is lost or added. */
  lemma {:induction false} TakenAndWithout(f: Finalizer, finalizers: seq<Finalizer>)
    ensures multiset(Taken(f, finalizers)) + multiset(Without(f, finalizers)) == multiset(finalizers)
  {
    if finalizers == [] {
    } else {
      TakenAndWithout(f, finalizers[1..]);
      FirstTaken(f, finalizers);
    }
  }

  lemma FirstTaken(f: Finalizer, s: seq<Finalizer>)
    requires s != []
    ensures multiset(Taken(f, s)) + multiset(Without(f, s)) ==
            multiset{s[0]} + (multiset(Taken(f, s[1..])) + multiset(Without(f, s[1..])))
    ensures multiset(s) == multiset{s[0]} + multiset(s[1..])
  {
    var rest := s[1..];
    assert s == [s[0]] + rest;
    OneMore(s[0], rest);
    if s[0] == f {
      OneMore(f, Taken(f, rest));
      assert Without(f, s) == Without(f, rest);
    } else {
      OneMore(s[0], Without(f, rest));
      assert Taken(f, s) == Taken(f, rest);
    }
  }

  lemma OneMore(x: Finalizer, s: seq<Finalizer>)
    ensures multiset([x] + s) == multiset{x} + multiset(s)
  {
  }

  lemma {:induction false} TakenHas(f: Finalizer, finalizers: seq<Finalizer>)
    ensures forall x :: x in Taken(f, finalizers) ==> x == f
    ensures f in finalizers <==> Taken(f, finalizers) != []
  {
    if finalizers == [] {
    } else {
      TakenHas(f, finalizers[1..]);
      assert finalizers == [finalizers[0]] + finalizers[1..];
    }
  }

  lemma {:induction false} WithoutHas(f: Finalizer, finalizers: seq<Finalizer>, x: Finalizer)
    ensures x in Without(f, finalizers) <==> x != f && x in finalizers
  {
    if finalizers == [] {
    } else {
      WithoutHas(f, finalizers[1..], x);
      assert finalizers == [finalizers[0]] + finalizers[1..];
    }
  }

  /** The ordered list is a permutation of the original. */
  lemma {:induction false} OrderedIsPermutation(order: seq<Finalizer>, finalizers: seq<Finalizer>)
    ensures multiset(Arranged(order, finalizers)) == multiset(finalizers)
    decreases |order|
  {
    if order == [] {
    } else {
      TakenAndWithout(order[0], finalizers);
      OrderedIsPermutation(order[1..], Without(order[0], finalizers));
    }
  }

  // ---------------------------------------------------------------- the pass

  /** What a pass did: the handlers it called, the finalizers it left, and whether pods are all gone. */
  datatype Pass = Pass(ran: seq<Finalizer>, kept: seq<Finalizer>, shouldReconcile: bool)

  /** checkFinalizers over an ordered list; `failing` are the finalizers whose handler returns an error. */
  function Check(ordered: seq<Finalizer>, failing: set<Finalizer>, errorState: bool): Pass {
    if ordered == [] then Pass([], [], false)
    else
      var f, rest := ordered[0], ordered[1..];
      if !Handled(f) then
        var p := Check(rest, failing, errorState);
        p.(kept := [f] + p.kept)
      else if f in failing && !errorState then Pass([f], ordered, false)
      else
        var p := Check(rest, failing, errorState);
        Pass([f] + p.ran, p.kept, (IsPods(f) && f !in failing) || p.shouldReconcile)
  }

  lemma CheckAt(ordered: seq<Finalizer>, failing: set<Finalizer>, errorState: bool, i: nat)
    requires i < |ordered|
    ensures var f := ordered[i];
            var now, next := Check(ordered[i..], failing, errorState), Check(ordered[i + 1..], failing, errorState);
            && (!Handled(f) ==> now == Pass(next.ran, [f] + next.kept, next.shouldReconcile))
            && (Handled(f) && f in failing && !errorState ==> now == Pass([f], ordered[i..], false))
            && (Handled(f) && (f !in failing || errorState) ==>
                  now == Pass([f] + next.ran, next.kept, (IsPods(f) && f !in failing) || next.shouldReconcile))
  {
    assert ordered[i..][0] == ordered[i] && ordered[i..][1..] == ordered[i + 1..];
  }

  /** A pass over the first part of the list, followed by one over the rest. */
  function Joined(p: Pass, q: Pass): Pass {
    Pass(p.ran + q.ran, p.kept + q.kept, p.shouldReconcile || q.shouldReconcile)
  }

  lemma JoinedAt(p: Pass, ordered: seq<Finalizer>, failing: set<Finalizer>, errorState: bool, i: nat)
    requires i < |ordered|
    ensures var f := ordered[i];
            var now, next := Check(ordered[i..], failing, errorState), Check(ordered[i + 1..], failing, errorState);
            if !Handled(f) then Joined(p, now) == Joined(p.(kept := p.kept + [f]), next)
            else if f in failing && !errorState then
              Joined(p, now) == Pass(p.ran + [f], p.kept + ordered[i..], p.shouldReconcile)
            else
              var stop := p.shouldReconcile || (IsPods(f) && f !in failing);
              Joined(p, now) == Joined(Pass(p.ran + [f], p.kept, stop), next)
  {
    var f, next := ordered[i], Check(ordered[i + 1..], failing, errorState);
    CheckAt(ordered, failing, errorState, i);
    Regrouped(p.ran, [f], next.ran);
    Regrouped(p.kept, [f], next.kept);
  }

  method CheckFinalizers(ordered: seq<Finalizer>, failing: set<Finalizer>, errorState: bool) returns (p: Pass)
    ensures p == Check(ordered, failing, errorState)
  {
    var ran, kept, shouldReconcile := [], [], false;
    for i := 0 to |ordered|
      invariant Check(ordered, failing, errorState) ==
                Joined(Pass(ran, kept, shouldReconcile), Check(ordered[i..], failing, errorState))
    {
      var f := ordered[i];
      CheckAt(ordered, failing, errorState, i);
      JoinedAt(Pass(ran, kept, shouldReconcile), ordered, failing, errorState, i);
      if !Handled(f) {
        kept := kept + [f];
        continue;
      }
      ran := ran + [f];
      if f !in failing {
        if IsPods(f) {
          shouldReconcile := true;
        }
        continue;
      }
      if errorState {
        continue;
      }
      kept := kept + ordered[i..];
      return Pass(ran, kept, shouldReconcile);
    }
    assert ordered[|ordered|..] == [];
    return Pass(ran, kept, shouldReconcile);
  }

  /**
   A cluster in the error state never gets stuck: every handler is called, whatever fails, and only
   others' finalizers stay.
   */
  lemma {:induction false} ErrorStateNeverSticks(ordered: seq<Finalizer>, failing: set<Finalizer>, f: Finalizer)
    ensures var p := Check(ordered, failing, true);
            && (f in p.ran <==> f in ordered && Handled(f))
            && (f in p.kept <==> f in ordered && !Handled(f))
  {
    if ordered == [] {
    } else {
      assert ordered == [ordered[0]] + ordered[1..];
      ErrorStateNeverSticks(ordered[1..], failing, f);
    }
  }

  /** A pass ends the reconcile exactly when it called a pods-in-order handler that succeeded. */
  lemma {:induction false} StopsExactlyWhenPodsGone(ordered: seq<Finalizer>, failing: set<Finalizer>, errorState: bool)
    ensures var p := Check(ordered, failing, errorState);
            p.shouldReconcile <==> exists f :: f in p.ran && IsPods(f) && f !in failing
  {
    if ordered == [] {
    } else {
      StopsExactlyWhenPodsGone(ordered[1..], failing, errorState);
      var p, q, f := Check(ordered, failing, errorState), Check(ordered[1..], failing, errorState), ordered[0];
      if !Handled(f) {
        assert p.ran == q.ran;
      } else if f in failing && !errorState {
        assert p.ran == [f];
      } else {
        assert p.ran == [f] + q.ran;
        assert forall x :: x in p.ran <==> x == f || x in q.ran;
      }
    }
  }

  /** No handler before the `k`th finalizer fails. */
  ghost predicate Reached(ordered: seq<Finalizer>, failing: set<Finalizer>, k: nat) {
    forall i :: 0 <= i < k && i < |ordered| ==> !(Handled(ordered[i]) && ordered[i] in failing)
  }

  /** A handler is called if none before it failed; a finalizer goes if its handler is called and succeeds. */
  lemma {:induction false} CheckedExactly(ordered: seq<Finalizer>, failing: set<Finalizer>, f: Finalizer)
    ensures var p := Check(ordered, failing, false);
            && (f in p.ran <==>
                  exists k :: 0 <= k < |ordered| && ordered[k] == f && Handled(f) && Reached(ordered, failing, k))
            && (f in p.kept <==>
                  exists k :: && 0 <= k < |ordered| && ordered[k] == f
                              && !(Handled(f) && f !in failing && Reached(ordered, failing, k)))
  {
    if ordered == [] {
    } else {
      var first, rest := ordered[0], ordered[1..];
      CheckedExactly(rest, failing, f);
      assert Reached(ordered, failing, 0);
      forall k | 0 <= k < |rest|
        ensures Reached(ordered, failing, k + 1) <==>
                  !(Handled(first) && first in failing) && Reached(rest, failing, k)
      {
        ReachedNext(ordered, failing, k);
      }
      assert forall k :: 0 <= k < |rest| ==> rest[k] == ordered[k + 1];
    }
  }

  lemma ReachedNext(ordered: seq<Finalizer>, failing: set<Finalizer>, k: nat)
    requires k + 1 < |ordered|
    ensures Reached(ordered, failing, k + 1) <==>
              !(Handled(ordered[0]) && ordered[0] in failing) && Reached(ordered[1..], failing, k)
  {
    var rest := ordered[1..];
    if Reached(ordered, failing, k + 1) {
      forall i | 0 <= i < k ensures !(Handled(rest[i]) && rest[i] in failing) {
        assert rest[i] == ordered[i + 1];
      }
    } else {
      var i :| 0 <= i < k + 1 && Handled(ordered[i]) && ordered[i] in failing;
      if i > 0 {
        assert rest[i - 1] == ordered[i];
      }
    }
  }

  /** Every pods-in-order finalizer of the list comes before the first volume finalizer. */
  ghost predicate PodsFirst(ordered: seq<Finalizer>) {
    forall i, f :: 0 <= i < |ordered| && IsPvc(ordered[i]) && f in ordered && IsPods(f) ==> f in ordered[..i]
  }

  /** Volumes are deleted in a pass in which an attached pods-in-order finalizer did not succeed. */
  ghost predicate DeletesVolumesEarly(ordered: seq<Finalizer>, failing: set<Finalizer>) {
    var p := Check(ordered, failing, false);
    (exists v :: v in p.ran && IsPvc(v)) && (exists f :: f in ordered && IsPods(f) && f in failing)
  }

  /** In a pass outside the error state everything called before the last call succeeded, in list order. */
  lemma {:induction false} RanIsAPrefix(ordered: seq<Finalizer>, failing: set<Finalizer>, k: nat)
    requires k < |ordered| && IsPvc(ordered[k]) && (forall i :: 0 <= i < k ==> !IsPvc(ordered[i]))
    ensures var p := Check(ordered, failing, false);
            (exists v :: v in p.ran && IsPvc(v)) <==>
            forall i :: 0 <= i < k && Handled(ordered[i]) ==> ordered[i] !in failing
  {
    var p, f, rest := Check(ordered, failing, false), ordered[0], ordered[1..];
    if k == 0 {
      assert f in p.ran;
    } else {
      assert rest[k - 1] == ordered[k];
      assert forall i :: 0 <= i < k - 1 ==> rest[i] == ordered[i + 1];
      RanIsAPrefix(rest, failing, k - 1);
      var q := Check(rest, failing, false);
      if Handled(f) && f in failing {
        assert p.ran == [f];
      } else {
        assert forall v :: v in p.ran && IsPvc(v) ==> v in q.ran;
        assert forall v :: v in q.ran ==> v in p.ran;
        if forall i :: 0 <= i < k - 1 && Handled(rest[i]) ==> rest[i] !in failing {
          forall i | 0 <= i < k && Handled(ordered[i]) ensures ordered[i] !in failing {
            if i > 0 {
              assert rest[i - 1] == ordered[i];
            }
          }
        }
      }
    }
  }

  lemma {:induction false} NoPvcNoRun(ordered: seq<Finalizer>, failing: set<Finalizer>)
    requires forall i :: 0 <= i < |ordered| ==> !IsPvc(ordered[i])
    ensures forall v :: v in Check(ordered, failing, false).ran ==> !IsPvc(v)
  {
    if ordered == [] {
    } else {
      NoPvcNoRun(ordered[1..], failing);
    }
  }

  lemma {:induction false} FirstPvc(ordered: seq<Finalizer>) returns (k: nat)
    ensures k <= |ordered| && (forall i :: 0 <= i < k ==> !IsPvc(ordered[i]))
    ensures k < |ordered| ==> IsPvc(ordered[k])
  {
    k := 0;
    while k < |ordered| && !IsPvc(ordered[k])
      invariant k <= |ordered| && forall i :: 0 <= i < k ==> !IsPvc(ordered[i])
    {
      k := k + 1;
    }
  }

  /** With pods first, no pass outside the error state deletes volumes early. */
  lemma PodsFirstIsSafe(ordered: seq<Finalizer>, failing: set<Finalizer>)
    requires PodsFirst(ordered)
    ensures !DeletesVolumesEarly(ordered, failing)
  {
    var k := FirstPvc(ordered);
    if k == |ordered| {
      NoPvcNoRun(ordered, failing);
    } else {
      RanIsAPrefix(ordered, failing, k);
      forall f | f in ordered && IsPods(f) && exists v :: v in Check(ordered, failing, false).ran && IsPvc(v)
        ensures f !in failing
      {
        assert f in ordered[..k];
      }
    }
  }

  /** Otherwise some pass does: the pods handler fails after the volumes are gone. */
  lemma OtherwiseUnsafe(ordered: seq<Finalizer>)
    requires !PodsFirst(ordered)
    ensures exists failing :: DeletesVolumesEarly(ordered, failing)
  {
    var i, f :| 0 <= i < |ordered| && IsPvc(ordered[i]) && f in ordered && IsPods(f) && f !in ordered[..i];
    var k := FirstPvc(ordered);
    assert k <= i && ordered[..k] == ordered[..i][..k];
    assert f !in ordered[..k];
    var failing := {f};
    RanIsAPrefix(ordered, failing, k);
    forall a | 0 <= a < k && Handled(ordered[a]) ensures ordered[a] !in failing {
      assert ordered[a] in ordered[..k];
    }
    assert DeletesVolumesEarly(ordered, failing);
  }

  // ---------------------------------------------------------------- which attached names are safe

  /** `p` occurs, and before any `v`. */
  predicate Leads(p: Finalizer, v: Finalizer, finalizers: seq<Finalizer>) {
    finalizers != [] && (finalizers[0] == p || (finalizers[0] != v && Leads(p, v, finalizers[1..])))
  }

  lemma {:induction false} LeadsMeaning(p: Finalizer, v: Finalizer, s: seq<Finalizer>)
    requires p != v && p in s
    ensures Leads(p, v, s) <==> forall i :: 0 <= i < |s| && s[i] == v ==> p in s[..i]
  {
    if s[0] == p {
      forall i | 0 <= i < |s| && s[i] == v ensures p in s[..i] {
        assert s[..i][0] == p;
      }
    } else if s[0] == v {
      assert p !in s[..0];
    } else {
      var t := s[1..];
      LeadsMeaning(p, v, t);
      if Leads(p, v, t) {
        forall i | 0 <= i < |s| && s[i] == v ensures p in s[..i] {
          assert t[i - 1] == v && s[..i] == [s[0]] + t[..i - 1];
        }
      } else {
        var i :| 0 <= i < |t| && t[i] == v && p !in t[..i];
        assert s[i + 1] == v && s[..i + 1] == [s[0]] + t[..i];
      }
    }
  }

  lemma {:induction false} LeadsWithout(p: Finalizer, v: Finalizer, f: Finalizer, s: seq<Finalizer>)
    requires f != p && f != v
    ensures Leads(p, v, Without(f, s)) == Leads(p, v, s)
  {
    if s == [] {
    } else {
      LeadsWithout(p, v, f, s[1..]);
      var w := Without(f, s[1..]);
      if s[0] == f {
        assert Without(f, s) == w;
      } else {
        assert Without(f, s) == [s[0]] + w && ([s[0]] + w)[1..] == w;
      }
    }
  }

  /** The pods and volume finalizers a version sorts to the front, and the ones it leaves where they are. */
  function FrontPods(before117: bool): Finalizer { if before117 then LegacyPods else DeletePods }
  function FrontPvc(before117: bool): Finalizer { if before117 then LegacyPvc else DeletePvc }
  function BackPods(before117: bool): Finalizer { if before117 then DeletePods else LegacyPods }
  function BackPvc(before117: bool): Finalizer { if before117 then DeletePvc else LegacyPvc }

  /**
   The other generation's pods finalizer is attached only without this generation's volume
   finalizer, and then ahead of its own.
   */
  predicate SafeNames(finalizers: seq<Finalizer>, before117: bool) {
    BackPods(before117) in finalizers ==>
      && FrontPvc(before117) !in finalizers
      && (BackPvc(before117) in finalizers ==> Leads(BackPods(before117), BackPvc(before117), finalizers))
  }

  /** The front holds no volume finalizer and not the other generation's pods; the rest none of this generation's. */
  predicate ThreeParts(front: seq<Finalizer>, volumes: seq<Finalizer>, rest: seq<Finalizer>, before117: bool) {
    && (forall f :: f in front ==> !IsPvc(f) && f != BackPods(before117))
    && (forall f :: f in volumes ==> f == FrontPvc(before117))
    && FrontPods(before117) !in rest && FrontPvc(before117) !in rest
  }

  predicate RestIsSafe(volumes: seq<Finalizer>, rest: seq<Finalizer>, before117: bool) {
    BackPods(before117) in rest ==>
      volumes == [] && (BackPvc(before117) in rest ==> Leads(BackPods(before117), BackPvc(before117), rest))
  }

  lemma SafeRestPodsFirst(front: seq<Finalizer>, volumes: seq<Finalizer>, rest: seq<Finalizer>, before117: bool)
    requires ThreeParts(front, volumes, rest, before117) && RestIsSafe(volumes, rest, before117)
    ensures PodsFirst(front + volumes + rest)
  {
    var all, p2, v2 := front + volumes + rest, BackPods(before117), BackPvc(before117);
    if p2 in rest {
      LeadsMeaning(p2, v2, rest);
    }
    assert forall k :: 0 <= k < |front| ==> all[k] in front;
    forall i, f | 0 <= i < |all| && IsPvc(all[i]) && f in all && IsPods(f) ensures f in all[..i] {
      if f in front {
        assert all[..i][..|front|] == front;
      } else {
        var r := i - |front| - |volumes|;
        assert f == p2 && p2 in rest && volumes == [];
        assert all[i] == rest[r] && rest[r] in rest;
        assert all[..i] == front + rest[..r];
      }
    }
  }

  lemma UnsafeRestPodsLater(front: seq<Finalizer>, volumes: seq<Finalizer>, rest: seq<Finalizer>, before117: bool)
    requires ThreeParts(front, volumes, rest, before117) && !RestIsSafe(volumes, rest, before117)
    ensures !PodsFirst(front + volumes + rest)
  {
    var p2, v2 := BackPods(before117), BackPvc(before117);
    if volumes != [] {
      assert volumes[0] in volumes;
      PodsBehind(front, volumes[0], volumes[1..] + rest, p2);
      assert front + [volumes[0]] + (volumes[1..] + rest) == front + volumes + rest;
    } else {
      LeadsMeaning(p2, v2, rest);
      var r :| 0 <= r < |rest| && rest[r] == v2 && p2 !in rest[..r];
      assert rest == rest[..r] + [v2] + rest[r + 1..];
      PodsBehind(front + rest[..r], v2, rest[r + 1..], p2);
      assert front + rest[..r] + [v2] + rest[r + 1..] == front + volumes + rest;
    }
  }

  /** A pods finalizer that stands only behind a volume one. */
  lemma PodsBehind(a: seq<Finalizer>, v: Finalizer, b: seq<Finalizer>, p: Finalizer)
    requires IsPvc(v) && IsPods(p) && p !in a && p in b
    ensures !PodsFirst(a + [v] + b)
  {
    var all := a + [v] + b;
    assert all[|a|] == v && all[..|a|] == a && p in all;
  }

  /** How the ordered list is made up, for either generation of names. */
  lemma ArrangedParts(finalizers: seq<Finalizer>, before117: bool)
    returns (front: seq<Finalizer>, volumes: seq<Finalizer>, rest: seq<Finalizer>)
    ensures Arranged(Order(before117), finalizers) == front + volumes + rest
    ensures ThreeParts(front, volumes, rest, before117)
    ensures volumes == [] <==> FrontPvc(before117) !in finalizers
    ensures BackPods(before117) in rest <==> BackPods(before117) in finalizers
    ensures BackPvc(before117) in rest <==> BackPvc(before117) in finalizers
    ensures Leads(BackPods(before117), BackPvc(before117), rest) ==
              Leads(BackPods(before117), BackPvc(before117), finalizers)
  {
    if before117 {
      front, volumes, rest := TwoMoved(finalizers, true);
    } else {
      var s, pitr := Without(DeletePitr, finalizers), Taken(DeletePitr, finalizers);
      PitrMoved(finalizers);
      TakenHas(DeletePitr, finalizers);
      var pods;
      pods, volumes, rest := TwoMoved(s, false);
      front := pitr + pods;
      FourParts(pitr, pods, volumes, rest);
    }
  }

  lemma FourParts(pitr: seq<Finalizer>, pods: seq<Finalizer>, volumes: seq<Finalizer>, rest: seq<Finalizer>)
    requires ThreeParts(pods, volumes, rest, false) && (forall x :: x in pitr ==> x == DeletePitr)
    ensures ThreeParts(pitr + pods, volumes, rest, false)
    ensures pitr + (pods + volumes + rest) == pitr + pods + volumes + rest
  {
  }

  lemma PitrMoved(finalizers: seq<Finalizer>)
    ensures var s := Without(DeletePitr, finalizers);
            && Arranged(Order(false), finalizers) ==
               Taken(DeletePitr, finalizers) + Arranged([DeletePods, DeletePvc], s)
            && (DeletePvc in s <==> DeletePvc in finalizers)
            && (LegacyPods in s <==> LegacyPods in finalizers)
            && (LegacyPvc in s <==> LegacyPvc in finalizers)
            && Leads(LegacyPods, LegacyPvc, s) == Leads(LegacyPods, LegacyPvc, finalizers)
  {
    WithoutHas(DeletePitr, finalizers, DeletePvc);
    WithoutHas(DeletePitr, finalizers, LegacyPods);
    WithoutHas(DeletePitr, finalizers, LegacyPvc);
    LeadsWithout(LegacyPods, LegacyPvc, DeletePitr, finalizers);
    assert Order(false)[1..] == [DeletePods, DeletePvc];
  }

  lemma TwoMoved(s: seq<Finalizer>, before117: bool)
    returns (pods: seq<Finalizer>, volumes: seq<Finalizer>, rest: seq<Finalizer>)
    ensures Arranged([FrontPods(before117), FrontPvc(before117)], s) == pods + volumes + rest
    ensures ThreeParts(pods, volumes, rest, before117)
    ensures volumes == [] <==> FrontPvc(before117) !in s
    ensures BackPods(before117) in rest <==> BackPods(before117) in s
    ensures BackPvc(before117) in rest <==> BackPvc(before117) in s
    ensures Leads(BackPods(before117), BackPvc(before117), rest) == Leads(BackPods(before117), BackPvc(before117), s)
  {
    var p1, v1, p2, v2 := FrontPods(before117), FrontPvc(before117), BackPods(before117), BackPvc(before117);
    var t := Without(p1, s);
    pods, volumes, rest := Taken(p1, s), Taken(v1, t), Without(v1, t);
    ArrangedTwo(p1, v1, s);
    TakenHas(p1, s);
    TakenHas(v1, t);
    TwiceWithout(p1, v1, s, p1);
    TwiceWithout(p1, v1, s, v1);
    TwiceWithout(p1, v1, s, p2);
    TwiceWithout(p1, v1, s, v2);
    WithoutHas(p1, s, v1);
    LeadsWithout(p2, v2, p1, s);
    LeadsWithout(p2, v2, v1, t);
  }

  lemma ArrangedTwo(f: Finalizer, g: Finalizer, s: seq<Finalizer>)
    ensures Arranged([f, g], s) == Taken(f, s) + Taken(g, Without(f, s)) + Without(g, Without(f, s))
  {
    var t := Without(f, s);
    assert [g][1..] == [] && [f, g][1..] == [g];
    assert Arranged([g], t) == Taken(g, t) + Without(g, t);
  }

  lemma TwiceWithout(f: Finalizer, g: Finalizer, s: seq<Finalizer>, x: Finalizer)
    ensures x in Without(g, Without(f, s)) <==> x != f && x != g && x in s
  {
    WithoutHas(f, s, x);
    WithoutHas(g, Without(f, s), x);
  }

  /** Which attached names put the pods first. */
  lemma NamesDecideOrder(finalizers: seq<Finalizer>, before117: bool)
    ensures PodsFirst(Arranged(Order(before117), finalizers)) <==> SafeNames(finalizers, before117)
  {
    var front, volumes, rest := ArrangedParts(finalizers, before117);
    if RestIsSafe(volumes, rest, before117) {
      SafeRestPodsFirst(front, volumes, rest, before117);
    } else {
      UnsafeRestPodsLater(front, volumes, rest, before117);
    }
  }

  /**
   For every attached list and version: no pass outside the error state deletes volumes while an
   attached pods-in-order finalizer fails, if and only if the attached names are safe.
   */
  lemma VolumesWaitForPods(finalizers: seq<Finalizer>, before117: bool)
    ensures (forall failing :: !DeletesVolumesEarly(Arranged(Order(before117), finalizers), failing)) <==>
               SafeNames(finalizers, before117)
  {
    var ordered := Arranged(Order(before117), finalizers);
    NamesDecideOrder(finalizers, before117);
    if PodsFirst(ordered) {
      forall failing ensures !DeletesVolumesEarly(ordered, failing) {
        PodsFirstIsSafe(ordered, failing);
      }
    } else {
      OtherwiseUnsafe(ordered);
    }
  }

  /** With names of two generations attached, the volumes go and the pods' handler then fails. */
  lemma MixedNamesDeleteVolumesEarly()
    ensures DeletesVolumesEarly(Arranged(Order(false), [DeletePvc, LegacyPods]), {LegacyPods})
  {
    MixedNamesStay();
    var names, ran := [DeletePvc, LegacyPods], Check([DeletePvc, LegacyPods], {LegacyPods}, false).ran;
    assert names[0] == DeletePvc && names[1] == LegacyPods && ran[0] == DeletePvc;
    assert DeletePvc in ran && LegacyPods in names;
  }

  /** The current volume finalizer comes first, and the legacy pods one is left behind it. */
  lemma MixedNamesStay()
    ensures Arranged(Order(false), [DeletePvc, LegacyPods]) == [DeletePvc, LegacyPods]
  {
    PitrMoved([DeletePvc, LegacyPods]);
    ArrangedTwo(DeletePods, DeletePvc, [DeletePvc, LegacyPods]);
    OfTwo(DeletePitr, DeletePvc, LegacyPods);
    OfTwo(DeletePods, DeletePvc, LegacyPods);
    OfTwo(DeletePvc, DeletePvc, LegacyPods);
  }

  lemma OfTwo(f: Finalizer, a: Finalizer, b: Finalizer)
    ensures Taken(f, [a, b]) == (if a == f then [f] else []) + (if b == f then [f] else [])
    ensures Without(f, [a, b]) == (if a == f then [] else [a]) + (if b == f then [] else [b])
  {
    assert [a, b][1..] == [b] && [b][1..] == [];
    assert Taken(f, [b]) == if b == f then [f] else [];
    assert Without(f, [b]) == if b == f then [] else [b];
  }

  /** With the current names alone, volumes always wait for pods. */
  lemma CurrentNamesAreSafe(finalizers: seq<Finalizer>, failing: set<Finalizer>)
    requires LegacyPods !in finalizers
    ensures !DeletesVolumesEarly(Arranged(Order(false), finalizers), failing)
  {
    NamesDecideOrder(finalizers, false);
    PodsFirstIsSafe(Arranged(Order(false), finalizers), failing);
  }

  // ---------------------------------------------------------------- runs of passes

  /**
   A pass outside the error state drops a finalizer only if its handler was called and succeeded;
   others' stay, in order.
   */
  lemma {:induction false} DroppedMeansSucceeded(ordered: seq<Finalizer>, failing: set<Finalizer>, f: Finalizer)
    requires f in ordered
    ensures var p := Check(ordered, failing, false);
            f in p.kept || (Handled(f) && f in p.ran && f !in failing)
  {
    if ordered[0] != f {
      assert ordered == [ordered[0]] + ordered[1..];
      DroppedMeansSucceeded(ordered[1..], failing, f);
    }
  }

  lemma {:induction false} KeptWasAttached(ordered: seq<Finalizer>, failing: set<Finalizer>, f: Finalizer)
    ensures f in Check(ordered, failing, false).kept ==> f in ordered
  {
    if ordered == [] {
    } else {
      assert ordered == [ordered[0]] + ordered[1..];
      KeptWasAttached(ordered[1..], failing, f);
    }
  }

  function PassOver(finalizers: seq<Finalizer>, failing: set<Finalizer>): Pass {
    Check(Arranged(Order(false), finalizers), failing, false)
  }

  /** The finalizers left after passes that met the given failures. */
  function After(finalizers: seq<Finalizer>, passes: seq<set<Finalizer>>): seq<Finalizer> {
    if passes == [] then finalizers else PassOver(After(finalizers, passes[..|passes| - 1]), passes[|passes| - 1]).kept
  }

  /** In pass `j` the pods were shut down in order, to the end. */
  ghost predicate PodsGone(finalizers: seq<Finalizer>, passes: seq<set<Finalizer>>, j: nat)
    requires j < |passes|
  {
    DeletePods in PassOver(After(finalizers, passes[..j]), passes[j]).ran && DeletePods !in passes[j]
  }

  lemma AttachedStill(finalizers: seq<Finalizer>, failing: set<Finalizer>, f: Finalizer)
    ensures f in PassOver(finalizers, failing).kept ==> f in finalizers
    ensures f in finalizers ==>
              || f in PassOver(finalizers, failing).kept
              || (f in PassOver(finalizers, failing).ran && f !in failing)
  {
    var ordered := Arranged(Order(false), finalizers);
    OrderedIsPermutation(Order(false), finalizers);
    assert f in ordered <==> f in multiset(ordered);
    assert f in finalizers <==> f in multiset(finalizers);
    KeptWasAttached(ordered, failing, f);
    if f in ordered {
      DroppedMeansSucceeded(ordered, failing, f);
    }
  }

  /** Until some pass has shut the pods down, the pods finalizer stays attached. */
  lemma {:induction false} PodsFinalizerStays(finalizers: seq<Finalizer>, passes: seq<set<Finalizer>>)
    requires DeletePods in finalizers && LegacyPods !in finalizers
    requires forall j :: 0 <= j < |passes| ==> !PodsGone(finalizers, passes, j)
    ensures DeletePods in After(finalizers, passes)
  {
    if passes == [] {
    } else {
      var n := |passes| - 1;
      var before := passes[..n];
      NotGoneBefore(finalizers, passes, n);
      PodsFinalizerStays(finalizers, before);
      assert !PodsGone(finalizers, passes, n);
      AttachedStill(After(finalizers, before), passes[n], DeletePods);
    }
  }

  lemma {:induction false} NoLegacyAppears(finalizers: seq<Finalizer>, passes: seq<set<Finalizer>>)
    requires LegacyPods !in finalizers
    ensures LegacyPods !in After(finalizers, passes)
  {
    if passes == [] {
    } else {
      var n := |passes| - 1;
      NoLegacyAppears(finalizers, passes[..n]);
      AttachedStill(After(finalizers, passes[..n]), passes[n], LegacyPods);
    }
  }

  /**
   Over any run of passes outside the error state, from a list of current names with the
   pods-in-order finalizer attached: if the last pass deletes volumes, that pass or an earlier one
   has shut the pods down in order.
   */
  lemma VolumesGoAfterPods(finalizers: seq<Finalizer>, passes: seq<set<Finalizer>>)
    requires DeletePods in finalizers && LegacyPods !in finalizers && passes != []
    requires exists v :: v in PassOver(After(finalizers, passes[..|passes| - 1]), passes[|passes| - 1]).ran && IsPvc(v)
    ensures exists j :: 0 <= j < |passes| && PodsGone(finalizers, passes, j)
  {
    var n := |passes| - 1;
    var before, failing := passes[..n], passes[n];
    var now := After(finalizers, before);
    if forall j :: 0 <= j < n ==> !PodsGone(finalizers, passes, j) {
      NotGoneBefore(finalizers, passes, n);
      PodsFinalizerStays(finalizers, before);
      NoLegacyAppears(finalizers, before);
      VolumesRanAfterPods(now, failing);
      assert PodsGone(finalizers, passes, n);
    }
  }

  lemma NotGoneBefore(finalizers: seq<Finalizer>, passes: seq<set<Finalizer>>, n: nat)
    requires n <= |passes| && forall j :: 0 <= j < n ==> !PodsGone(finalizers, passes, j)
    ensures forall j :: 0 <= j < n ==> !PodsGone(finalizers, passes[..n], j)
  {
    forall j | 0 <= j < n ensures !PodsGone(finalizers, passes[..n], j) {
      assert passes[..n][..j] == passes[..j];
      assert !PodsGone(finalizers, passes, j);
    }
  }

  /** Within one pass: the pods handler was called and succeeded before the volumes were touched. */
  lemma VolumesRanAfterPods(finalizers: seq<Finalizer>, failing: set<Finalizer>)
    requires DeletePods in finalizers && LegacyPods !in finalizers
    requires exists v :: v in PassOver(finalizers, failing).ran && IsPvc(v)
    ensures DeletePods in PassOver(finalizers, failing).ran && DeletePods !in failing
  {
    var ordered := Arranged(Order(false), finalizers);
    NamesDecideOrder(finalizers, false);
    StillListed(finalizers, DeletePods);
    PodsRanFirst(ordered, failing);
  }

  lemma StillListed(finalizers: seq<Finalizer>, f: Finalizer)
    requires f in finalizers
    ensures f in Arranged(Order(false), finalizers)
  {
    OrderedIsPermutation(Order(false), finalizers);
    assert f in multiset(finalizers);
  }

  lemma PodsRanFirst(ordered: seq<Finalizer>, failing: set<Finalizer>)
    requires PodsFirst(ordered) && DeletePods in ordered
    requires exists v :: v in Check(ordered, failing, false).ran && IsPvc(v)
    ensures DeletePods in Check(ordered, failing, false).ran && DeletePods !in failing
  {
    var k := FirstPvc(ordered);
    if k == |ordered| {
      NoPvcNoRun(ordered, failing);
    } else {
      RanIsAPrefix(ordered, failing, k);
      assert DeletePods in ordered[..k];
      var i :| 0 <= i < k && ordered[i] == DeletePods;
      CalledInTurn(ordered, failing, k, i);
    }
  }

  lemma {:induction false} CalledInTurn(ordered: seq<Finalizer>, failing: set<Finalizer>, k: nat, i: nat)
    requires i < k <= |ordered| && Handled(ordered[i])
    requires forall a :: 0 <= a < k && Handled(ordered[a]) ==> ordered[a] !in failing
    ensures ordered[i] in Check(ordered, failing, false).ran
  {
    if i == 0 {
    } else {
      var rest := ordered[1..];
      assert forall a :: 0 <= a < k - 1 ==> rest[a] == ordered[a + 1];
      CalledInTurn(rest, failing, k - 1, i - 1);
    }
  }
}
