/**
 Waiting for a pod after it was deleted, resized or found current: a bounded number of polls, each
 reading the pod into the same local copy, which a "not found" leaves as it was.
 */
module PodWait {
  import opened Options

  /** A container status: whether it is one of the server containers, and its readiness. */
  datatype Container = Container(server: bool, ready: bool)

  /** A copy of a pod; `updated` says that its revision label is the update revision. */
  datatype PodView = PodView(uid: nat, updated: bool, running: bool, containers: seq<Container>)

  /** Readiness of the last server container listed. */
  function Ready(containers: seq<Container>): bool {
    if containers == [] then false
    else
      var last := containers[|containers| - 1];
      if last.server then last.ready else Ready(containers[..|containers| - 1])
  }

  /** There is a server container, and the last one listed is ready; what else runs in the pod does not matter. */
  ghost predicate ServerUp(containers: seq<Container>) {
    exists i :: 0 <= i < |containers| && LastServer(containers, i) && containers[i].ready
  }

  ghost predicate LastServer(containers: seq<Container>, i: nat)
    requires i < |containers|
  {
    containers[i].server && forall j :: i < j < |containers| ==> !containers[j].server
  }

  lemma {:induction false} ReadyExactly(containers: seq<Container>)
    ensures Ready(containers) <==> ServerUp(containers)
  {
    if containers == [] {
    } else {
      var n := |containers| - 1;
      var init := containers[..n];
      ReadyExactly(init);
      if containers[n].server {
        assert LastServer(containers, n);
      } else {
        forall i | 0 <= i < n ensures LastServer(containers, i) <==> LastServer(init, i) {
        }
      }
    }
  }

  /** At the update revision, running, and its server ready. */
  ghost predicate Up(p: PodView) {
    p.updated && p.running && ServerUp(p.containers)
  }

  /** The test a poll makes of its copy. */
  predicate Counts(p: PodView) {
    p.running && p.updated && Ready(p.containers)
  }

  lemma CountsExactly(p: PodView)
    ensures Counts(p) <==> Up(p)
  {
    ReadyExactly(p.containers);
  }

  method ServerReady(containers: seq<Container>) returns (ready: bool)
    ensures ready == Ready(containers)
    ensures ready <==> ServerUp(containers)
  {
    ReadyExactly(containers);
    ready := false;
    for i := 0 to |containers|
      invariant ready == Ready(containers[..i])
    {
      assert containers[..i + 1][..i] == containers[..i];
      if containers[i].server {
        ready := containers[i].ready;
      }
    }
    assert containers[..|containers|] == containers;
  }

  /** How a poll goes: the context ends, a call fails, or the pod is read, None standing for "not found". */
  datatype Poll = Cancelled | GetFails | StatusFails | Got(seen: Option<PodView>)

  function Copied(copy: PodView, seen: Option<PodView>): PodView {
    if seen.Some? then seen.value else copy
  }

  /** waitPodRestart: whether it returns without an error, and its last copy. */
  function Waited(copy: PodView, polls: seq<Poll>): (bool, PodView)
    decreases |polls|
  {
    if polls == [] || !polls[0].Got? then (false, copy)
    else
      var next := Copied(copy, polls[0].seen);
      if Counts(next) then (true, next) else Waited(next, polls[1..])
  }

  method WaitPodRestart(pod: PodView, polls: seq<Poll>) returns (ok: bool, copy: PodView)
    ensures (ok, copy) == Waited(pod, polls)
    ensures ok ==> Up(copy)
    ensures ok && !pod.updated ==> Got(Some(copy)) in polls
  {
    WaitedMeaning(pod, polls);
    copy := pod;
    for i := 0 to |polls|
      invariant Waited(pod, polls) == Waited(copy, polls[i..])
    {
      assert polls[i..][0] == polls[i] && polls[i..][1..] == polls[i + 1..];
      if !polls[i].Got? {
        return false, copy;
      }
      if polls[i].seen.Some? {
        copy := polls[i].seen.value;
      }
      var ready := ServerReady(copy.containers);
      if copy.running && copy.updated && ready {
        return true, copy;
      }
    }
    return false, copy;
  }

  /** The polls up to the one that ends a successful wait. */
  function Ending(copy: PodView, polls: seq<Poll>): (i: nat)
    requires Waited(copy, polls).0
    ensures i < |polls| && polls[i].Got?
    decreases |polls|
  {
    var next := Copied(copy, polls[0].seen);
    if Counts(next) then 0 else 1 + Ending(next, polls[1..])
  }

  /**
   A wait that succeeds ends on a copy at the update revision, running and ready. The poll it ends
   on read just that pod, unless it is the first, the pod was not found, and the copy the wait
   began with counts.
   */
  lemma {:induction false} WaitedMeaning(copy: PodView, polls: seq<Poll>)
    ensures var (ok, seen) := Waited(copy, polls);
            ok ==>
              && Up(seen)
              && (polls[Ending(copy, polls)] == Got(Some(seen)) <==> !(polls[0] == Got(None) && Up(copy)))
              && (!copy.updated ==> Got(Some(seen)) in polls)
    decreases |polls|
  {
    CountsExactly(copy);
    if polls != [] && polls[0].Got? {
      var next := Copied(copy, polls[0].seen);
      CountsExactly(next);
      if !Counts(next) {
        WaitedMeaning(next, polls[1..]);
        assert forall p :: p in polls[1..] ==> p in polls;
      }
    }
  }

  /**
   A wait succeeds exactly when, before any call fails, some poll reads a pod that is up, or the
   first finds none and the copy at hand is up.
   */
  lemma {:induction false} WaitedExactly(copy: PodView, polls: seq<Poll>)
    ensures Waited(copy, polls).0 <==> ComesUp(copy, polls)
    decreases |polls|
  {
    CountsExactly(copy);
    if polls == [] || !polls[0].Got? {
    } else {
      var next, rest := Copied(copy, polls[0].seen), polls[1..];
      CountsExactly(next);
      WaitedExactly(next, rest);
      forall i | 0 <= i < |rest| ensures ReadsUp(polls, i + 1) <==> ReadsUp(rest, i) {
        assert polls[i + 1] == rest[i];
        assert forall k :: 0 < k <= i ==> polls[k] == rest[k - 1];
      }
      if polls[0].seen.Some? && Up(next) {
        assert ReadsUp(polls, 0);
      }
      if i :| 0 <= i < |polls| && ReadsUp(polls, i) && i > 0 {
        assert ReadsUp(rest, i - 1);
      }
    }
  }

  ghost predicate ComesUp(copy: PodView, polls: seq<Poll>) {
    || (polls != [] && polls[0] == Got(None) && Up(copy))
    || exists i :: 0 <= i < |polls| && ReadsUp(polls, i)
  }

  /** The `i`th poll is reached and reads a pod that is up. */
  ghost predicate ReadsUp(polls: seq<Poll>, i: nat)
    requires i < |polls|
  {
    && (forall k :: 0 <= k < i ==> polls[k].Got?)
    && polls[i].Got? && polls[i].seen.Some? && Up(polls[i].seen.value)
  }

  /** A pod that is gone counts as ready when it was current and ready as listed. */
  lemma KeptCopyCounts(copy: PodView)
    requires Up(copy)
    ensures Waited(copy, [Got(None)]) == (true, copy)
  {
    CountsExactly(copy);
  }

  // ---------------------------------------------------------------- the pod's own life

  /** The pod of one ordinal, and how many objects the StatefulSet controller has created for it so far. */
  datatype Life = Life(pod: Option<PodView>, born: nat)

  /** Its status changes, it goes away, or a missing pod is created from the update revision. */
  ghost predicate LifeStep(a: Life, b: Life) {
    || (a.pod.Some? && b.pod.Some? && b.born == a.born
        && b.pod.value.uid == a.pod.value.uid && b.pod.value.updated == a.pod.value.updated)
    || (b.pod.None? && b.born == a.born)
    || (a.pod.None? && b.born == a.born + 1 && b.pod.Some? && b.pod.value.uid == a.born && b.pod.value.updated)
  }

  ghost predicate IsLife(lives: seq<Life>) {
    |lives| > 0 && forall k :: 0 <= k < |lives| - 1 ==> LifeStep(lives[k], lives[k + 1])
  }

  /** Every poll reads the pod as it was at some point of its life, cached or not. */
  ghost predicate ReadsFrom(polls: seq<Poll>, lives: seq<Life>) {
    forall p :: Got(Some(p)) in polls ==> exists k :: 0 <= k < |lives| && lives[k].pod == Some(p)
  }

  /** A pod seen later is the first one, label and all, or was created since, from the update revision. */
  lemma {:induction false} SameOrNewer(lives: seq<Life>, old': PodView, k: nat)
    requires IsLife(lives) && k < |lives| && lives[0].pod == Some(old') && old'.uid < lives[0].born
    ensures lives[0].born <= lives[k].born
    ensures lives[k].pod.Some? ==>
              var p := lives[k].pod.value;
              (p.uid == old'.uid && p.updated == old'.updated) || (lives[0].born <= p.uid && p.updated)
  {
    if k == 0 {
    } else {
      SameOrNewer(lives, old', k - 1);
      assert LifeStep(lives[k - 1], lives[k]);
    }
  }

  /**
   After the deletion of a pod of another revision, a wait that succeeds has seen a pod created
   since that deletion, at the update revision, running and ready: no copy of the old pod ever
   counts, terminating or gone.
   */
  lemma BackIsANewPod(lives: seq<Life>, old': PodView, polls: seq<Poll>)
    requires IsLife(lives) && lives[0].pod == Some(old') && old'.uid < lives[0].born && !old'.updated
    requires ReadsFrom(polls, lives) && Waited(old', polls).0
    ensures var seen := Waited(old', polls).1;
            && Up(seen) && lives[0].born <= seen.uid
            && exists k :: 0 < k < |lives| && lives[k].pod == Some(seen)
  {
    var seen := Waited(old', polls).1;
    WaitedMeaning(old', polls);
    var k :| 0 <= k < |lives| && lives[k].pod == Some(seen);
    SameOrNewer(lives, old', k);
  }
}
