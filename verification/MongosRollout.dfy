/**
 The mongos rollout right after its StatefulSet was recreated around running pods. On each sync
 the StatefulSet controller walks the ordinals upward and gives up at the first pod that still
 runs the old template, so it recreates a missing pod only when every pod below it is current.
 */
module MongosRollout {

  datatype Slot = Absent | Stale | Current

  /** The lowest ordinal that is not current. */
  function FirstOpen(pods: seq<Slot>): (i: nat)
    ensures i <= |pods|
    ensures forall k :: 0 <= k < i ==> pods[k] == Current
    ensures i < |pods| ==> pods[i] != Current
  {
    if pods == [] || pods[0] != Current then 0 else 1 + FirstOpen(pods[1..])
  }

  /** One sync of the controller. */
  function Sync(pods: seq<Slot>): seq<Slot> {
    var i := FirstOpen(pods);
    if i < |pods| && pods[i] == Absent then pods[i := Current] else pods
  }

  function Syncs(pods: seq<Slot>, n: nat): (r: seq<Slot>)
    ensures |r| == |pods|
    decreases n
  {
    if n == 0 then pods else Syncs(Sync(pods), n - 1)
  }

  /** recreateNWait: delete the pod unless it is current. */
  function Delete(pods: seq<Slot>, o: nat): seq<Slot>
    requires o < |pods|
  {
    if pods[o] == Stale then pods[o := Absent] else pods
  }

  /** waitPodRestart: the pods after the poll that found the pod, or after the last one. */
  function Wait(pods: seq<Slot>, o: nat, polls: nat): (r: (seq<Slot>, bool))
    requires o < |pods|
    ensures |r.0| == |pods|
    decreases polls
  {
    if polls == 0 then (pods, false)
    else
      var next := Sync(pods);
      if next[o] == Current then (next, true) else Wait(next, o, polls - 1)
  }

  predicate InRange(order: seq<nat>, n: nat) {
    forall i :: 0 <= i < |order| ==> order[i] < n
  }

  /** The rollout in a given order: the pods it leaves and whether it got through. */
  function Roll(pods: seq<Slot>, order: seq<nat>, polls: nat): (r: (seq<Slot>, bool))
    requires InRange(order, |pods|)
    ensures |r.0| == |pods|
    decreases |order|
  {
    if order == [] then (pods, true)
    else
      var (after, ok) := Wait(Delete(pods, order[0]), order[0], polls);
      if !ok then (after, false) else Roll(after, order[1..], polls)
  }

  /** The polls of waitPodRestart, a sync of the controller before each. */
  method AwaitPod(pods: seq<Slot>, o: nat, polls: nat) returns (after: seq<Slot>, ok: bool)
    requires o < |pods|
    ensures (after, ok) == Wait(pods, o, polls)
  {
    after, ok := pods, false;
    var left := polls;
    while left > 0
      invariant |after| == |pods|
      invariant Wait(pods, o, polls) == Wait(after, o, left)
    {
      after := Sync(after);
      left := left - 1;
      if after[o] == Current {
        return after, true;
      }
    }
  }

  /** The loop of smartMongosUpdate. */
  method RollOut(pods: seq<Slot>, order: seq<nat>, polls: nat) returns (after: seq<Slot>, ok: bool)
    requires InRange(order, |pods|)
    ensures (after, ok) == Roll(pods, order, polls)
  {
    after := pods;
    assert order[0..] == order;
    for i := 0 to |order|
      invariant |after| == |pods|
      invariant Roll(pods, order, polls) == Roll(after, order[i..], polls)
    {
      var o := order[i];
      RollNext(after, order, i, polls);
      if after[o] == Stale {
        after := after[o := Absent];
      }
      after, ok := AwaitPod(after, o, polls);
      if !ok {
        return;
      }
    }
    ok := true;
  }

  lemma RollNext(pods: seq<Slot>, order: seq<nat>, i: nat, polls: nat)
    requires i < |order| && InRange(order, |pods|)
    ensures var (after, ok) := Wait(Delete(pods, order[i]), order[i], polls);
            Roll(pods, order[i..], polls) == if ok then Roll(after, order[i + 1..], polls) else (after, false)
  {
    assert order[i..][0] == order[i] && order[i..][1..] == order[i + 1..];
  }

  function Ascending(from: nat, n: nat): (r: seq<nat>)
    requires from <= n
    ensures |r| == n - from && forall i :: 0 <= i < |r| ==> r[i] == from + i
  {
    seq(n - from, i => from + i)
  }

  function AllStale(n: nat): seq<Slot> {
    seq(n, _ => Stale)
  }

  function AllCurrent(n: nat): seq<Slot> {
    seq(n, _ => Current)
  }

  /** While the lowest open pod is stale, no number of syncs changes anything. */
  lemma {:induction false} StuckStays(pods: seq<Slot>, n: nat)
    requires FirstOpen(pods) < |pods| && pods[FirstOpen(pods)] == Stale
    ensures Syncs(pods, n) == pods
  {
    if n == 0 {
    } else {
      StuckStays(pods, n - 1);
    }
  }

  lemma {:induction false} StuckWait(pods: seq<Slot>, o: nat, polls: nat)
    requires o < |pods| && pods[o] == Absent
    requires FirstOpen(pods) < |pods| && pods[FirstOpen(pods)] == Stale
    ensures Wait(pods, o, polls) == (pods, false)
    decreases polls
  {
    if polls == 0 {
    } else {
      StuckWait(pods, o, polls - 1);
    }
  }

  lemma FirstOpenIs(pods: seq<Slot>, k: nat)
    requires k < |pods| && pods[k] != Current && forall i :: 0 <= i < k ==> pods[i] == Current
    ensures FirstOpen(pods) == k
  {
  }

  /** Pods below `k` are current and none above is missing. */
  predicate RolledUpTo(pods: seq<Slot>, k: nat) {
    && k <= |pods|
    && (forall i :: 0 <= i < k ==> pods[i] == Current)
    && (forall i :: k <= i < |pods| ==> pods[i] != Absent)
  }

  /** Deleting the pod the controller is stuck on lets it advance one ordinal. */
  lemma AdvanceOne(pods: seq<Slot>, k: nat, polls: nat)
    requires RolledUpTo(pods, k) && k < |pods| && polls > 0
    ensures var (after, ok) := Wait(Delete(pods, k), k, polls); ok && after == pods[k := Current]
  {
    var deleted := Delete(pods, k);
    if pods[k] == Stale {
      FirstOpenIs(deleted, k);
      assert Sync(deleted) == pods[k := Current];
    } else {
      assert pods[k := Current] == pods;
      var i := FirstOpen(deleted);
      assert Sync(deleted) == pods;
    }
  }

  lemma {:induction false} AscendingFrom(pods: seq<Slot>, k: nat, polls: nat)
    requires RolledUpTo(pods, k) && polls > 0
    ensures Roll(pods, Ascending(k, |pods|), polls) == (AllCurrent(|pods|), true)
    decreases |pods| - k
  {
    if k == |pods| {
      assert pods == AllCurrent(|pods|);
    } else {
      AdvanceOne(pods, k, polls);
      assert Ascending(k, |pods|)[1..] == Ascending(k + 1, |pods|);
      AscendingFrom(pods[k := Current], k + 1, polls);
    }
  }

  /** In ascending order the rollout ends with every pod updated, from any mix of old and new pods. */
  lemma AscendingCompletes(pods: seq<Slot>, polls: nat)
    requires polls > 0 && forall i :: 0 <= i < |pods| ==> pods[i] != Absent
    ensures Roll(pods, Ascending(0, |pods|), polls) == (AllCurrent(|pods|), true)
  {
    AscendingFrom(pods, 0, polls);
  }

  /** Descending order deletes the last pod and no later sync ever recreates it. */
  lemma DescendingDeadlocks(n: nat, syncs: nat, polls: nat)
    requires n >= 2
    ensures Syncs(Delete(AllStale(n), n - 1), syncs)[n - 1] == Absent
    ensures !Wait(Delete(AllStale(n), n - 1), n - 1, polls).1
  {
    var deleted := Delete(AllStale(n), n - 1);
    FirstOpenIs(deleted, 0);
    StuckStays(deleted, syncs);
    StuckWait(deleted, n - 1, polls);
  }

  /** Pods below `k` current, the rest stale. */
  function Progress(k: nat, n: nat): seq<Slot>
    requires k <= n
  {
    seq(n, i => if i < k then Current else Stale)
  }

  /** Every pod of `[k, n)` once. */
  predicate Visits(order: seq<nat>, k: nat, n: nat) {
    && (forall i :: 0 <= i < |order| ==> k <= order[i] < n)
    && (forall i, j :: 0 <= i < j < |order| ==> order[i] != order[j])
    && |order| == n - k
  }

  /** Taking the pod the controller waits for: the rollout goes on with the next ordinal. */
  lemma RightStep(order: seq<nat>, k: nat, n: nat, polls: nat)
    requires k < n && Visits(order, k, n) && polls > 0 && order[0] == k
    ensures Visits(order[1..], k + 1, n)
    ensures Roll(Progress(k, n), order, polls) == Roll(Progress(k + 1, n), order[1..], polls)
  {
    var pods := Progress(k, n);
    AdvanceOne(pods, k, polls);
    assert pods[k := Current] == Progress(k + 1, n);
  }

  /** Taking any other pod: it never comes back. */
  lemma WrongStep(order: seq<nat>, k: nat, n: nat, polls: nat)
    requires k < n && Visits(order, k, n) && order[0] != k
    ensures !Roll(Progress(k, n), order, polls).1
  {
    var deleted := Delete(Progress(k, n), order[0]);
    FirstOpenIs(deleted, k);
    StuckWait(deleted, order[0], polls);
  }

  lemma {:induction false} OnlyAscendingFrom(order: seq<nat>, k: nat, n: nat, polls: nat)
    requires k <= n && Visits(order, k, n) && polls > 0
    requires Roll(Progress(k, n), order, polls).1
    ensures forall i :: 0 <= i < |order| ==> order[i] == k + i
    decreases n - k
  {
    if k == n {
    } else {
      if order[0] != k {
        WrongStep(order, k, n, polls);
      }
      RightStep(order, k, n, polls);
      var rest := order[1..];
      OnlyAscendingFrom(rest, k + 1, n, polls);
      forall i | 0 <= i < |order| ensures order[i] == k + i {
        if i > 0 {
          assert rest[i - 1] == k + 1 + (i - 1);
        }
      }
    }
  }

  /** From all-stale pods, an order that takes each pod once gets through if and only if it is ascending. */
  lemma OnlyAscendingCompletes(order: seq<nat>, n: nat, polls: nat)
    requires Visits(order, 0, n) && polls > 0
    ensures Roll(AllStale(n), order, polls).1 <==> order == Ascending(0, n)
  {
    assert AllStale(n) == Progress(0, n);
    if Roll(AllStale(n), order, polls).1 {
      OnlyAscendingFrom(order, 0, n, polls);
    }
    AscendingCompletes(AllStale(n), polls);
  }
}
