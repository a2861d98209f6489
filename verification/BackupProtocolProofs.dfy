/**
 Mutual exclusion of backups: an inductive invariant over the history of stores and the
 reconciles in flight, its preservation by every disciplined action, and the theorems about whole
 runs. What happens without one of the three assumptions is the subject of BackupProtocolLimits.
 */
module BackupProtocolProofs {
  import opened Options
  import opened Leases
  import opened BackupProtocol

  predicate HasLock(s: Store, n: string) {
    n in s.backups && ReleaseLock in s.backups[n].finalizers
  }

  predicate HoldsLease(s: Store, h: Holder) {
    HolderOf(s.lease) == Some(h)
  }

  /** The object still is the one the reconcile read, unless it is gone. */
  predicate Matches(s: Store, n: string, uid: nat, base: Status) {
    && uid < s.nextUid
    && (n in s.backups ==> s.backups[n].uid == uid && s.backups[n].status == base)
  }

  /** What an earlier store says about the present one. */
  predicate Remembers(past: Store, now: Store) {
    && past.nextUid <= now.nextUid
    && (past.lease.Some? ==> past.lease.value.version < now.revision)
    && (past.lease.Some? && past.lease.value.holder.Some? ==> past.lease.value.holder.value.uid < now.nextUid)
    && (SameVersion(past.lease, now.lease) ==> past.lease == now.lease)
  }

  /** A holder found finished or gone stays so, and a lost lease was lost by such a holder. */
  predicate Irrevocable(past: Store, now: Store, h: Holder) {
    && (HasSeen(past, h.uid) && !Live(past, h) ==> !Live(now, h))
    && (HoldsLease(past, h) ==> HoldsLease(now, h) || !Live(now, h))
  }

  ghost predicate HistoryOk(w: World)
    requires WellFormed(w)
  {
    forall i :: 0 <= i < |w.history| ==>
      Remembers(w.history[i], Now(w)) && forall h :: Irrevocable(w.history[i], Now(w), h)
  }

  /** A started backup holds the lease and carries the release-lock finalizer. */
  predicate StartedOk(s: Store, n: string)
    requires n in s.backups
  {
    Started(s.backups[n]) ==> HoldsLease(s, Holder(n, s.backups[n].uid)) && HasLock(s, n)
  }

  ghost predicate BackupsOk(s: Store) {
    forall n :: n in s.backups ==> s.backups[n].uid < s.nextUid && StartedOk(s, n)
  }

  predicate WorkerOk(s: Store, n: string, worker: Worker) {
    match worker
    case Idle => true
    case Deciding(uid, base, locked) =>
      Matches(s, n, uid, base) && !Terminal(base.state) && (locked ==> HasLock(s, n))
    case Ensuring(uid, base, locked) =>
      && Matches(s, n, uid, base) && !Terminal(base.state) && (locked ==> HasLock(s, n))
      && (Pending(base.state) && n in s.backups ==> HoldsLease(s, Holder(n, uid)))
    case Executing(uid, base) =>
      && Matches(s, n, uid, base) && !Terminal(base.state) && HasLock(s, n)
      && (Pending(base.state) ==> HoldsLease(s, Holder(n, uid)))
    case Writing(uid, base, next, thenCancel) =>
      && Matches(s, n, uid, base) && !Terminal(base.state)
      && (thenCancel ==> next.state == Canceling)
      && (base.pbmName != "" ==> next.pbmName != "" || Terminal(next.state))
      && (n in s.backups && next.pbmName != "" && !Terminal(next.state) ==>
            HoldsLease(s, Holder(n, uid)) && HasLock(s, n))
    case Cancelling(uid, base) => Matches(s, n, uid, base) && !Terminal(base.state)
    case Releasing(uid) => uid < s.nextUid && !Live(s, Holder(n, uid))
    case Finalizing(uid, _, base, _, _) => Matches(s, n, uid, base) && Terminal(base.state)
  }

  ghost predicate WorkersOk(w: World)
    requires WellFormed(w)
  {
    forall n :: WorkerOk(Now(w), n, WorkerOf(w, n))
  }

  /** A store gives out UIDs in order. */
  ghost predicate UidsBelow(s: Store) {
    forall n :: n in s.backups ==> s.backups[n].uid < s.nextUid
  }

  ghost predicate PastUidsOk(w: World) {
    forall i :: 0 <= i < |w.history| ==> UidsBelow(w.history[i])
  }

  ghost predicate Inv(w: World) {
    WellFormed(w) && HistoryOk(w) && PastUidsOk(w) && BackupsOk(Now(w)) && WorkersOk(w)
  }

  lemma InitialInv()
    ensures Inv(INITIAL)
  {
  }

  /** A holder that is not live stays so: only a new object has a live identity that was not live before. */
  lemma DeadStaysDead(w: World, a: Action, h: Holder)
    requires Inv(w) && Enabled(w, a) && Disciplined(w, a)
    requires h.uid < Now(w).nextUid && !Live(Now(w), h)
    ensures !Live(NextStore(w, a), h)
  {
    assert WorkerOk(Now(w), a.n, WorkerOf(w, a.n));
  }

  /** A release deletes only a lease that names the releaser or nobody. */
  lemma ReleaseIsOwn(w: World, a: Action)
    requires Inv(w) && a.Release? && Enabled(w, a)
    requires NextStore(w, a).lease != Now(w).lease
    ensures NextStore(w, a).lease == None
    ensures HolderOf(Now(w).lease) == None || HoldsLease(Now(w), Holder(a.n, WorkerOf(w, a.n).uid))
    ensures !Live(Now(w), Holder(a.n, WorkerOf(w, a.n).uid))
  {
    assert WorkerOk(Now(w), a.n, WorkerOf(w, a.n));
    assert Remembers(w.history[a.leaseRead], Now(w));
  }

  /** A takeover replaces only a holder that has finished or is gone, however old the two reads were. */
  lemma TakeoverIsSafe(w: World, a: Action, h: Holder)
    requires Inv(w) && a.Acquire? && Enabled(w, a) && Disciplined(w, a)
    requires HoldsLease(Now(w), h) && !HoldsLease(NextStore(w, a), h)
    ensures !Live(Now(w), h)
  {
    assert Remembers(w.history[a.leaseRead], Now(w));
    assert Irrevocable(w.history[a.listRead], Now(w), h);
  }

  /** The lease leaves a holder only when that holder is no longer live. */
  lemma LeaseLoss(w: World, a: Action, h: Holder)
    requires Inv(w) && Enabled(w, a) && Disciplined(w, a)
    requires HoldsLease(Now(w), h) && !HoldsLease(NextStore(w, a), h)
    ensures !Live(Now(w), h)
  {
    if a.Acquire? {
      TakeoverIsSafe(w, a, h);
    } else if a.Release? {
      ReleaseIsOwn(w, a);
    }
  }

  /** An acquire that reports success leaves the lease with the caller, unless the caller's object is gone. */
  lemma AcquiredHolds(w: World, a: Action)
    requires Inv(w) && a.Acquire? && Enabled(w, a) && Disciplined(w, a)
    requires Pending(WorkerOf(w, a.n).base.state) && AcquireResult(w, a).1.Acquired?
    ensures a.n in Now(w).backups ==> HoldsLease(NextStore(w, a), Holder(a.n, WorkerOf(w, a.n).uid))
  {
    var me := Holder(a.n, WorkerOf(w, a.n).uid);
    assert WorkerOk(Now(w), a.n, WorkerOf(w, a.n));
    assert Irrevocable(w.history[a.leaseRead], Now(w), me);
  }

  lemma HistoryStep(w: World, a: Action)
    requires Inv(w) && Enabled(w, a) && Disciplined(w, a)
    ensures HistoryOk(Step(w, a))
  {
    var s, s', w' := Now(w), NextStore(w, a), Step(w, a);
    assert Remembers(s, s) by {
      assert w.history[|w.history| - 1] == s;
    }
    forall i | 0 <= i < |w'.history|
      ensures Remembers(w'.history[i], s')
      ensures forall h :: Irrevocable(w'.history[i], s', h)
    {
      var past := w'.history[i];
      if i < |w.history| {
        assert past == w.history[i] && Remembers(past, s);
        RememberStep(w, a, past);
        forall h ensures Irrevocable(past, s', h) {
          assert Irrevocable(past, s, h);
          IrrevocableStep(w, a, past, h);
        }
      } else {
        RememberSelf(w, a);
      }
    }
  }

  lemma RememberStep(w: World, a: Action, past: Store)
    requires Inv(w) && Enabled(w, a) && Disciplined(w, a)
    requires Remembers(past, Now(w))
    ensures Remembers(past, NextStore(w, a))
  {
  }

  lemma RememberSelf(w: World, a: Action)
    requires Inv(w) && Enabled(w, a) && Disciplined(w, a)
    requires Remembers(Now(w), Now(w))
    ensures Remembers(NextStore(w, a), NextStore(w, a))
  {
    assert WorkerOk(Now(w), a.n, WorkerOf(w, a.n));
  }

  lemma IrrevocableStep(w: World, a: Action, past: Store, h: Holder)
    requires Inv(w) && Enabled(w, a) && Disciplined(w, a)
    requires Remembers(past, Now(w)) && Irrevocable(past, Now(w), h)
    ensures Irrevocable(past, NextStore(w, a), h)
  {
    var s := Now(w);
    if !Live(s, h) && h.uid < s.nextUid {
      DeadStaysDead(w, a, h);
    }
    if HoldsLease(s, h) && !HoldsLease(NextStore(w, a), h) {
      LeaseLoss(w, a, h);
    }
  }

  /** What any action leaves of another backup's object and claim to the lease. */
  lemma OthersKeep(w: World, a: Action, m: string)
    requires Inv(w) && Enabled(w, a) && Disciplined(w, a) && m != a.n
    ensures m in NextStore(w, a).backups <==> m in Now(w).backups
    ensures m in Now(w).backups ==> NextStore(w, a).backups[m] == Now(w).backups[m]
    ensures m in Now(w).backups && !Terminal(Now(w).backups[m].status.state)
            && HoldsLease(Now(w), Holder(m, Now(w).backups[m].uid))
            ==> HoldsLease(NextStore(w, a), Holder(m, Now(w).backups[m].uid))
  {
    if m in Now(w).backups {
      var h := Holder(m, Now(w).backups[m].uid);
      if HoldsLease(Now(w), h) && !HoldsLease(NextStore(w, a), h) {
        LeaseLoss(w, a, h);
      }
    }
  }

  lemma OwnBackupStep(w: World, a: Action)
    requires Inv(w) && Enabled(w, a) && Disciplined(w, a)
    requires a.n in NextStore(w, a).backups
    ensures NextStore(w, a).backups[a.n].uid < NextStore(w, a).nextUid
    ensures StartedOk(NextStore(w, a), a.n)
  {
    var s := Now(w);
    assert WorkerOk(s, a.n, WorkerOf(w, a.n));
    if a.n in s.backups {
      var h := Holder(a.n, s.backups[a.n].uid);
      assert StartedOk(s, a.n);
      if HoldsLease(s, h) && !HoldsLease(NextStore(w, a), h) {
        LeaseLoss(w, a, h);
      }
    }
  }

  lemma BackupsStep(w: World, a: Action)
    requires Inv(w) && Enabled(w, a) && Disciplined(w, a)
    ensures BackupsOk(NextStore(w, a))
  {
    var s' := NextStore(w, a);
    forall m | m in s'.backups
      ensures s'.backups[m].uid < s'.nextUid && StartedOk(s', m)
    {
      if m == a.n {
        OwnBackupStep(w, a);
      } else {
        OthersKeep(w, a, m);
        assert StartedOk(Now(w), m);
      }
    }
  }

  lemma OtherWorkerStep(w: World, a: Action, m: string)
    requires Inv(w) && Enabled(w, a) && Disciplined(w, a) && m != a.n
    ensures WorkerOk(NextStore(w, a), m, WorkerOf(w, m))
  {
    var worker := WorkerOf(w, m);
    assert WorkerOk(Now(w), m, worker);
    OthersKeep(w, a, m);
  }

  lemma OwnWorkerStep(w: World, a: Action)
    requires Inv(w) && Enabled(w, a) && Disciplined(w, a)
    ensures WorkerOk(NextStore(w, a), a.n, NextWorker(w, a))
  {
    if a.Acquire? {
      OwnAcquireStep(w, a);
    } else if a.WriteStatusNotFound? {
      assert WorkerOk(Now(w), a.n, WorkerOf(w, a.n));
      assert Irrevocable(w.history[a.read], Now(w), Holder(a.n, WorkerOf(w, a.n).uid));
    } else if a.Begin? {
      assert a.n in Now(w).backups && StartedOk(Now(w), a.n);
    } else {
      OwnOtherStep(w, a);
    }
  }

  lemma OwnAcquireStep(w: World, a: Action)
    requires Inv(w) && a.Acquire? && Enabled(w, a) && Disciplined(w, a)
    ensures WorkerOk(NextStore(w, a), a.n, NextWorker(w, a))
  {
    var s, worker := Now(w), WorkerOf(w, a.n);
    assert WorkerOk(s, a.n, worker);
    if a.n in s.backups {
      assert StartedOk(s, a.n);
    }
    if Pending(worker.base.state) && AcquireResult(w, a).1.Acquired? {
      AcquiredHolds(w, a);
    }
    var me := Holder(a.n, worker.uid);
    if a.n in s.backups && HoldsLease(s, me) && !HoldsLease(NextStore(w, a), me) {
      LeaseLoss(w, a, me);
    }
  }

  lemma OwnOtherStep(w: World, a: Action)
    requires Inv(w) && Enabled(w, a) && Disciplined(w, a)
    requires !a.Acquire? && !a.WriteStatusNotFound? && !a.Begin?
    ensures WorkerOk(NextStore(w, a), a.n, NextWorker(w, a))
  {
    assert WorkerOk(Now(w), a.n, WorkerOf(w, a.n));
    if a.n in Now(w).backups {
      assert StartedOk(Now(w), a.n);
    }
  }

  lemma WorkersStep(w: World, a: Action)
    requires Inv(w) && Enabled(w, a) && Disciplined(w, a)
    ensures WorkersOk(Step(w, a))
  {
    var w' := Step(w, a);
    forall m ensures WorkerOk(Now(w'), m, WorkerOf(w', m)) {
      if m == a.n {
        OwnWorkerStep(w, a);
      } else {
        OtherWorkerStep(w, a, m);
      }
    }
  }

  /** Every disciplined action keeps the invariant. */
  lemma StepInv(w: World, a: Action)
    requires Inv(w) && Enabled(w, a) && Disciplined(w, a)
    ensures Inv(Step(w, a))
  {
    HistoryStep(w, a);
    BackupsStep(w, a);
    WorkersStep(w, a);
  }

  lemma {:induction false} RunInv(w: World, actions: seq<Action>)
    requires Inv(w) && Runnable(w, actions) && DisciplinedRun(w, actions)
    ensures Inv(Run(w, actions))
    decreases |actions|
  {
    if actions == [] {
    } else {
      StepInv(w, actions[0]);
      RunInv(Step(w, actions[0]), actions[1..]);
    }
  }

  /** In every reachable store, a started backup holds the lease and carries the release-lock finalizer. */
  lemma StartedHoldsLease(actions: seq<Action>, n: string)
    requires Runnable(INITIAL, actions) && DisciplinedRun(INITIAL, actions)
    requires n in Now(Run(INITIAL, actions)).backups && Started(Now(Run(INITIAL, actions)).backups[n])
    ensures var s := Now(Run(INITIAL, actions));
            HoldsLease(s, Holder(n, s.backups[n].uid)) && ReleaseLock in s.backups[n].finalizers
  {
    RunInv(INITIAL, actions);
    assert StartedOk(Now(Run(INITIAL, actions)), n);
  }

  /** At most one backup of the cluster is started at a time. */
  lemma MutualExclusion(actions: seq<Action>, n: string, m: string)
    requires Runnable(INITIAL, actions) && DisciplinedRun(INITIAL, actions)
    requires var s := Now(Run(INITIAL, actions));
             n in s.backups && m in s.backups && Started(s.backups[n]) && Started(s.backups[m])
    ensures n == m
  {
    StartedHoldsLease(actions, n);
    StartedHoldsLease(actions, m);
  }

  /** The backup command is sent only by the lease holder, and only while no other backup is started. */
  lemma OnlyHolderSends(actions: seq<Action>, n: string, pbmName: string)
    requires Runnable(INITIAL, actions) && DisciplinedRun(INITIAL, actions)
    requires Enabled(Run(INITIAL, actions), SendCommand(n, pbmName))
    ensures var w := Run(INITIAL, actions);
            && n in Now(w).backups && ReleaseLock in Now(w).backups[n].finalizers
            && Now(w).backups[n].uid == WorkerOf(w, n).uid
            && HoldsLease(Now(w), Holder(n, WorkerOf(w, n).uid))
            && forall m :: m in Now(w).backups && Started(Now(w).backups[m]) ==> m == n
  {
    var w := Run(INITIAL, actions);
    RunInv(INITIAL, actions);
    assert WorkerOk(Now(w), n, WorkerOf(w, n));
    forall m | m in Now(w).backups && Started(Now(w).backups[m]) ensures m == n {
      assert StartedOk(Now(w), m);
    }
  }

  /** A started backup survives every action: its object stays, with its identity and its finalizer. */
  lemma StartedCannotVanish(actions: seq<Action>, a: Action, n: string)
    requires Runnable(INITIAL, actions) && DisciplinedRun(INITIAL, actions)
    requires Enabled(Run(INITIAL, actions), a) && Disciplined(Run(INITIAL, actions), a)
    requires n in Now(Run(INITIAL, actions)).backups && Started(Now(Run(INITIAL, actions)).backups[n])
    ensures var s, s' := Now(Run(INITIAL, actions)), NextStore(Run(INITIAL, actions), a);
            && n in s'.backups && s'.backups[n].uid == s.backups[n].uid
            && (Started(s'.backups[n]) || Terminal(s'.backups[n].status.state))
  {
    RunInv(INITIAL, actions);
    StartedStays(Run(INITIAL, actions), a, n);
  }

  lemma StartedStays(w: World, a: Action, n: string)
    requires Inv(w) && Enabled(w, a) && Disciplined(w, a) && n in Now(w).backups && Started(Now(w).backups[n])
    ensures var s, s' := Now(w), NextStore(w, a);
            && n in s'.backups && s'.backups[n].uid == s.backups[n].uid
            && (Started(s'.backups[n]) || Terminal(s'.backups[n].status.state))
  {
    assert StartedOk(Now(w), n);
    if n != a.n {
      OthersKeep(w, a, n);
    } else {
      assert WorkerOk(Now(w), n, WorkerOf(w, n));
    }
  }

  /** A late answer is still true: a holder seen finished or gone at any earlier point is so now. */
  lemma StaleReadStaysTrue(actions: seq<Action>, read: nat, h: Holder)
    requires Runnable(INITIAL, actions) && DisciplinedRun(INITIAL, actions)
    requires read < |Run(INITIAL, actions).history|
    requires HasSeen(Run(INITIAL, actions).history[read], h.uid)
              && HolderStale(Run(INITIAL, actions).history[read], Some(h))
    ensures !Live(Now(Run(INITIAL, actions)), h)
  {
    var w := Run(INITIAL, actions);
    RunInv(INITIAL, actions);
    assert Irrevocable(w.history[read], Now(w), h);
  }

  /** ReleaseLease, on any reachable store and any cached copy, never removes a lease held by someone else. */
  lemma ReleaseNeverStealsLease(actions: seq<Action>, a: Action, h: Holder)
    requires Runnable(INITIAL, actions) && DisciplinedRun(INITIAL, actions)
    requires a.Release? && Enabled(Run(INITIAL, actions), a)
    requires HoldsLease(Now(Run(INITIAL, actions)), h) && h != Holder(a.n, WorkerOf(Run(INITIAL, actions), a.n).uid)
    ensures NextStore(Run(INITIAL, actions), a).lease == Now(Run(INITIAL, actions)).lease
  {
    RunInv(INITIAL, actions);
    if NextStore(Run(INITIAL, actions), a).lease != Now(Run(INITIAL, actions)).lease {
      ReleaseIsOwn(Run(INITIAL, actions), a);
    }
  }
}
