/**
 Reconciles of a cluster and firings of its version job, in any number and any interleaving. Both
 take the cluster's mutex; a flag makes the job give way until a reconcile has come and gone.
 */
module VersionJob {
  import opened Options

  /**
   Where a goroutine stands. A reconcile waits for the mutex, works, runs its deferred store of the
   flag and then its deferred unlock. A firing waits for the mutex, tries its compare-and-swap, and
   either works or leaves.
   */
  datatype Place = ReconcileWaits | Reconciling | FlagDropped | JobWaits | JobLocked | JobWorking | JobLeaving

  datatype Event = ReconcileStarted(t: nat) | ReconcileFinished(t: nat) | BodyStarted(t: nat) | BodyFinished(t: nat)

  datatype World = World(owner: Option<nat>, updateWait: bool, threads: map<nat, Place>, log: seq<Event>)

  datatype Action =
    | StartReconcile(t: nat)
    | FireJob(t: nat)
    | Lock(t: nat)
    | DropFlag(t: nat)
    | CompareAndSwap(t: nat)
    | FinishBody(t: nat)
    | Unlock(t: nat)

  predicate At(w: World, t: nat, p: Place) {
    t in w.threads && w.threads[t] == p
  }

  predicate Enabled(w: World, a: Action) {
    match a
    case StartReconcile(t) => t !in w.threads
    case FireJob(t) => t !in w.threads
    case Lock(t) => w.owner.None? && (At(w, t, ReconcileWaits) || At(w, t, JobWaits))
    case DropFlag(t) => At(w, t, Reconciling)
    case CompareAndSwap(t) => At(w, t, JobLocked)
    case FinishBody(t) => At(w, t, JobWorking)
    case Unlock(t) => At(w, t, FlagDropped) || At(w, t, JobLeaving)
  }

  function Step(w: World, a: Action): World
    requires Enabled(w, a)
  {
    match a
    case StartReconcile(t) => w.(threads := w.threads[t := ReconcileWaits])
    case FireJob(t) => w.(threads := w.threads[t := JobWaits])
    case Lock(t) =>
      if At(w, t, ReconcileWaits)
      then w.(owner := Some(t), threads := w.threads[t := Reconciling], log := w.log + [ReconcileStarted(t)])
      else w.(owner := Some(t), threads := w.threads[t := JobLocked])
    case DropFlag(t) => w.(updateWait := false, threads := w.threads[t := FlagDropped])
    case CompareAndSwap(t) =>
      if w.updateWait then w.(threads := w.threads[t := JobLeaving])
      else w.(updateWait := true, threads := w.threads[t := JobWorking], log := w.log + [BodyStarted(t)])
    case FinishBody(t) => w.(threads := w.threads[t := JobLeaving], log := w.log + [BodyFinished(t)])
    case Unlock(t) =>
      w.(owner := None, threads := w.threads - {t},
         log := if At(w, t, FlagDropped) then w.log + [ReconcileFinished(t)] else w.log)
  }

  const INITIAL: World := World(None, false, map[], [])

  ghost predicate IsRun(worlds: seq<World>, actions: seq<Action>) {
    && |worlds| == |actions| + 1 && worlds[0] == INITIAL
    && forall i :: 0 <= i < |actions| ==> Enabled(worlds[i], actions[i]) && worlds[i + 1] == Step(worlds[i], actions[i])
  }

  /** Past the lock and before the unlock. */
  predicate Inside(p: Place) {
    p != ReconcileWaits && p != JobWaits
  }

  /** The position of the last body that started, or -1. */
  function LastBody(log: seq<Event>): (p: int)
    ensures -1 <= p < |log|
    ensures p >= 0 ==> log[p].BodyStarted?
    ensures forall i :: p < i < |log| ==> !log[i].BodyStarted?
  {
    if log == [] then -1
    else if log[|log| - 1].BodyStarted? then |log| - 1
    else LastBody(log[..|log| - 1])
  }

  /** Reconcile `t` started after the last body did. */
  ghost predicate OpenedSince(log: seq<Event>, t: nat) {
    exists a :: LastBody(log) < a < |log| && log[a] == ReconcileStarted(t)
  }

  /** A whole reconcile, from its lock to its unlock, lies strictly between two positions. */
  ghost predicate WholeReconcile(log: seq<Event>, from: int, to: int) {
    exists a, b :: 0 <= a && from < a < b < to && b < |log| && log[a].ReconcileStarted?
        && log[b] == ReconcileFinished(log[a].t)
  }

  ghost predicate ClosedSince(log: seq<Event>) {
    WholeReconcile(log, LastBody(log), |log|)
  }

  /** Only the owner of the mutex is inside, and it is. */
  ghost predicate Exclusive(w: World) {
    && (forall t :: t in w.threads && Inside(w.threads[t]) ==> w.owner == Some(t))
    && (w.owner.Some? ==> w.owner.value in w.threads && Inside(w.threads[w.owner.value]))
  }

  ghost predicate Alternates(log: seq<Event>) {
    forall i, j :: 0 <= i < j < |log| && log[i].BodyStarted? && log[j].BodyStarted? ==> WholeReconcile(log, i, j)
  }

  ghost predicate Inv(w: World) {
    && Exclusive(w)
    && Alternates(w.log)
    && (forall t :: At(w, t, Reconciling) || At(w, t, FlagDropped) ==> OpenedSince(w.log, t))
    && (!w.updateWait && LastBody(w.log) >= 0 ==> ClosedSince(w.log) || exists t :: At(w, t, FlagDropped))
  }

  /** Recording anything but the start of a body leaves every statement about the past true. */
  lemma QuietEvent(log: seq<Event>, e: Event)
    requires !e.BodyStarted?
    ensures LastBody(log + [e]) == LastBody(log)
    ensures Alternates(log) ==> Alternates(log + [e])
    ensures forall t :: OpenedSince(log, t) ==> OpenedSince(log + [e], t)
    ensures ClosedSince(log) ==> ClosedSince(log + [e])
  {
    var log' := log + [e];
    assert log'[..|log|] == log;
    forall i, j | WholeReconcile(log, i, j) && j <= |log| ensures WholeReconcile(log', i, j) {
      Recorded(log, e, i, j);
    }
    forall t | OpenedSince(log, t) ensures OpenedSince(log', t) {
      var a :| LastBody(log) < a < |log| && log[a] == ReconcileStarted(t);
      assert log'[a] == ReconcileStarted(t);
    }
    if ClosedSince(log) {
      Recorded(log, e, LastBody(log), |log|);
      Wider(log', LastBody(log), |log|, |log'|);
    }
  }

  lemma Recorded(log: seq<Event>, e: Event, i: int, j: int)
    requires WholeReconcile(log, i, j)
    ensures WholeReconcile(log + [e], i, j)
  {
    var a, b :| 0 <= a && i < a < b < j && b < |log| && log[a].ReconcileStarted?
        && log[b] == ReconcileFinished(log[a].t);
    var log' := log + [e];
    assert log'[a] == log[a] && log'[b] == log[b];
  }

  lemma Wider(log: seq<Event>, i: int, j: int, j': int)
    requires WholeReconcile(log, i, j) && j <= j'
    ensures WholeReconcile(log, i, j')
  {
    var a, b :| 0 <= a && i < a < b < j && b < |log| && log[a].ReconcileStarted?
        && log[b] == ReconcileFinished(log[a].t);
    assert i < a < b < j';
  }

  lemma Earlier(log: seq<Event>, i: int, i': int, j: int)
    requires WholeReconcile(log, i, j) && i' <= i
    ensures WholeReconcile(log, i', j)
  {
    var a, b :| 0 <= a && i < a < b < j && b < |log| && log[a].ReconcileStarted?
        && log[b] == ReconcileFinished(log[a].t);
    assert i' < a < b < j;
  }

  /** A body may start when a whole reconcile has passed since the last one, or none ever ran. */
  lemma BodyRecorded(log: seq<Event>, t: nat)
    requires Alternates(log) && (LastBody(log) >= 0 ==> ClosedSince(log))
    ensures Alternates(log + [BodyStarted(t)])
  {
    var log' := log + [BodyStarted(t)];
    forall i, j | 0 <= i < j < |log'| && log'[i].BodyStarted? && log'[j].BodyStarted?
      ensures WholeReconcile(log', i, j)
    {
      if j < |log| {
        Recorded(log, BodyStarted(t), i, j);
      } else {
        Earlier(log, LastBody(log), i, |log|);
        Recorded(log, BodyStarted(t), i, |log|);
      }
    }
  }

  /** The unlock of a reconcile that began after the last body completes it. */
  lemma ReconcileRecorded(log: seq<Event>, t: nat)
    requires OpenedSince(log, t)
    ensures ClosedSince(log + [ReconcileFinished(t)])
  {
    var log' := log + [ReconcileFinished(t)];
    QuietEvent(log, ReconcileFinished(t));
    var a :| LastBody(log) < a < |log| && log[a] == ReconcileStarted(t);
    assert log'[a] == ReconcileStarted(t) && log'[|log|] == ReconcileFinished(t);
  }

  lemma StepExclusive(w: World, a: Action)
    requires Exclusive(w) && Enabled(w, a)
    ensures Exclusive(Step(w, a))
  {
  }

  /** The step that starts a body, under the mutex and with the flag down. */
  lemma BodyStep(w: World, t: nat)
    requires Inv(w) && At(w, t, JobLocked) && !w.updateWait
    ensures Inv(Step(w, CompareAndSwap(t)))
  {
    StepExclusive(w, CompareAndSwap(t));
    assert w.owner == Some(t);
    BodyRecorded(w.log, t);
  }

  lemma LockStep(w: World, t: nat)
    requires Inv(w) && Enabled(w, Lock(t)) && At(w, t, ReconcileWaits)
    ensures Inv(Step(w, Lock(t)))
  {
    StepExclusive(w, Lock(t));
    var log' := w.log + [ReconcileStarted(t)];
    QuietEvent(w.log, ReconcileStarted(t));
    assert log'[|w.log|] == ReconcileStarted(t);
    assert OpenedSince(log', t);
  }

  lemma UnlockStep(w: World, t: nat)
    requires Inv(w) && At(w, t, FlagDropped)
    ensures Inv(Step(w, Unlock(t)))
  {
    StepExclusive(w, Unlock(t));
    QuietEvent(w.log, ReconcileFinished(t));
    ReconcileRecorded(w.log, t);
  }

  lemma DropStep(w: World, t: nat)
    requires Inv(w) && At(w, t, Reconciling)
    ensures Inv(Step(w, DropFlag(t)))
  {
    StepExclusive(w, DropFlag(t));
    assert At(Step(w, DropFlag(t)), t, FlagDropped);
  }

  lemma FinishStep(w: World, t: nat)
    requires Inv(w) && At(w, t, JobWorking)
    ensures Inv(Step(w, FinishBody(t)))
  {
    var w' := Step(w, FinishBody(t));
    StepExclusive(w, FinishBody(t));
    QuietEvent(w.log, BodyFinished(t));
    NobodyReconciles(w, t);
    NobodyReconciles(w', t);
  }

  /** While a firing is inside, no reconcile is. */
  lemma NobodyReconciles(w: World, t: nat)
    requires Exclusive(w) && t in w.threads && Inside(w.threads[t])
    requires w.threads[t] != Reconciling && w.threads[t] != FlagDropped
    ensures forall u :: !At(w, u, Reconciling) && !At(w, u, FlagDropped)
  {
  }

  /** A step that records nothing, leaves the flag alone and moves no reconcile. */
  lemma SilentStep(w: World, a: Action)
    requires Inv(w) && Enabled(w, a)
    requires Step(w, a).log == w.log && Step(w, a).updateWait == w.updateWait
    requires forall u, p :: p == Reconciling || p == FlagDropped ==> At(w, u, p) == At(Step(w, a), u, p)
    ensures Inv(Step(w, a))
  {
    StepExclusive(w, a);
  }

  lemma StepInv(w: World, a: Action)
    requires Inv(w) && Enabled(w, a)
    ensures Inv(Step(w, a))
  {
    if a.Lock? && At(w, a.t, ReconcileWaits) {
      LockStep(w, a.t);
    } else if a.DropFlag? {
      DropStep(w, a.t);
    } else if a.CompareAndSwap? && !w.updateWait {
      BodyStep(w, a.t);
    } else if a.FinishBody? {
      FinishStep(w, a.t);
    } else if a.Unlock? && At(w, a.t, FlagDropped) {
      UnlockStep(w, a.t);
    } else {
      SilentStep(w, a);
    }
  }

  lemma {:induction false} RunInv(worlds: seq<World>, actions: seq<Action>, i: nat)
    requires IsRun(worlds, actions) && i < |worlds|
    ensures Inv(worlds[i])
  {
    if i == 0 {
    } else {
      RunInv(worlds, actions, i - 1);
      StepInv(worlds[i - 1], actions[i - 1]);
    }
  }

  /** In every interleaving, no body of the version job overlaps a reconcile or another body. */
  lemma BodiesOverlapNothing(worlds: seq<World>, actions: seq<Action>, i: nat, t: nat, u: nat)
    requires IsRun(worlds, actions) && i < |worlds| && t != u && At(worlds[i], t, JobWorking)
    ensures !At(worlds[i], u, Reconciling) && !At(worlds[i], u, FlagDropped) && !At(worlds[i], u, JobWorking)
  {
    RunInv(worlds, actions, i);
  }

  /** Between the starts of two bodies lies a whole reconcile, from its lock to its unlock. */
  lemma ReconcileBetweenBodies(worlds: seq<World>, actions: seq<Action>, k: nat, i: nat, j: nat)
    requires IsRun(worlds, actions) && k < |worlds|
    requires i < j < |worlds[k].log| && worlds[k].log[i].BodyStarted? && worlds[k].log[j].BodyStarted?
    ensures exists a, b :: i < a < b < j && worlds[k].log[a].ReconcileStarted?
              && worlds[k].log[b] == ReconcileFinished(worlds[k].log[a].t)
  {
    RunInv(worlds, actions, k);
    assert WholeReconcile(worlds[k].log, i, j);
  }

  // ---------------------------------------------------------------- which firings do their work

  /** A reconcile has finished since the last body started. */
  ghost predicate FinishedSince(log: seq<Event>) {
    exists b :: LastBody(log) < b < |log| && log[b].ReconcileFinished?
  }

  /** No body has started yet, or a reconcile has finished since the last one did. */
  ghost predicate Due(log: seq<Event>) {
    LastBody(log) < 0 || FinishedSince(log)
  }

  ghost predicate FlagInv(w: World) {
    (Due(w.log) || exists t :: At(w, t, FlagDropped)) ==> !w.updateWait
  }

  lemma FinishedQuiet(log: seq<Event>, e: Event)
    requires !e.BodyStarted? && !e.ReconcileFinished? && FinishedSince(log + [e])
    ensures FinishedSince(log)
  {
    QuietEvent(log, e);
    var b :| LastBody(log + [e]) < b < |log + [e]| && (log + [e])[b].ReconcileFinished?;
    assert log[b].ReconcileFinished?;
  }

  lemma DueQuiet(log: seq<Event>, e: Event)
    requires !e.BodyStarted? && !e.ReconcileFinished? && Due(log + [e])
    ensures Due(log)
  {
    QuietEvent(log, e);
    if FinishedSince(log + [e]) {
      FinishedQuiet(log, e);
    }
  }

  lemma NotDueAfterBody(log: seq<Event>, t: nat)
    ensures !Due(log + [BodyStarted(t)])
  {
    assert LastBody(log + [BodyStarted(t)]) == |log|;
  }

  lemma FlagStep(w: World, a: Action)
    requires Exclusive(w) && FlagInv(w) && Enabled(w, a)
    ensures FlagInv(Step(w, a))
  {
    var w' := Step(w, a);
    if a.CompareAndSwap? && !w.updateWait {
      NotDueAfterBody(w.log, a.t);
      StepExclusive(w, a);
      NobodyReconciles(w', a.t);
    } else if a.Unlock? && At(w, a.t, FlagDropped) {
      assert !w'.updateWait;
    } else if a.DropFlag? {
      assert !w'.updateWait;
    } else if w'.updateWait {
      assert forall t :: At(w', t, FlagDropped) ==> At(w, t, FlagDropped);
      if Due(w'.log) && w'.log != w.log {
        DueQuiet(w.log, w'.log[|w.log|]);
      }
    }
  }

  lemma {:induction false} FlagRun(worlds: seq<World>, actions: seq<Action>, i: nat)
    requires IsRun(worlds, actions) && i < |worlds|
    ensures FlagInv(worlds[i])
  {
    if i == 0 {
    } else {
      FlagRun(worlds, actions, i - 1);
      RunInv(worlds, actions, i - 1);
      FlagStep(worlds[i - 1], actions[i - 1]);
    }
  }

  /** Under the mutex, with a firing inside: the flag is down exactly when a body is due. */
  lemma FlagExactly(w: World, t: nat)
    requires Inv(w) && FlagInv(w) && At(w, t, JobLocked)
    ensures !w.updateWait <==> Due(w.log)
  {
    NobodyReconciles(w, t);
    if !w.updateWait && LastBody(w.log) >= 0 {
      assert ClosedSince(w.log);
      var a, b :| 0 <= a && LastBody(w.log) < a < b < |w.log| && b < |w.log| && w.log[a].ReconcileStarted?
          && w.log[b] == ReconcileFinished(w.log[a].t);
      assert w.log[b].ReconcileFinished?;
    }
  }

  /**
   In every interleaving, a firing that comes to a free mutex does its work if and only if it is
   the first or a reconcile has finished since the last one that did; otherwise it leaves no trace.
   */
  lemma FiringWorksExactly(worlds: seq<World>, actions: seq<Action>, k: nat, t: nat)
    requires IsRun(worlds, actions) && k < |worlds| && worlds[k].owner.None? && At(worlds[k], t, JobWaits)
    ensures Enabled(worlds[k], Lock(t)) && Enabled(Step(worlds[k], Lock(t)), CompareAndSwap(t))
    ensures var w, w' := worlds[k], Step(Step(worlds[k], Lock(t)), CompareAndSwap(t));
            if Due(w.log) then At(w', t, JobWorking) && w'.log == w.log + [BodyStarted(t)]
            else At(w', t, JobLeaving) && w'.log == w.log
  {
    var w1 := Step(worlds[k], Lock(t));
    RunInv(worlds, actions, k);
    FlagRun(worlds, actions, k);
    StepInv(worlds[k], Lock(t));
    FlagStep(worlds[k], Lock(t));
    FlagExactly(w1, t);
  }
}
