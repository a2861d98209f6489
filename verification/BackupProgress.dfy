/**
 What reconciles of a backup achieve: what becomes of a backup that does not get the lease, that one
 can start as soon as the lease can be had, and what is stored, released and removed on the way out.
 */
module BackupProgress {
  import opened Options
  import opened Leases
  import opened BackupProtocol
  import opened BackupProtocolProofs
  import opened BackupProtocolLimits

  /** The object is there, and the server has no reason to remove it. */
  predicate Standing(s: Store, n: string) {
    n in s.backups && (s.backups[n].deleting ==> s.backups[n].finalizers != [])
  }

  /** Not started yet, and not given up. */
  predicate Unstarted(state: BackupState) {
    state == New || state == Waiting
  }

  // ---------------------------------------------------------------- the lease attempt

  /** The attempt succeeds on these copies: the lease is free, mine, or its copy current and its holder stale. */
  ghost predicate Gets(w: World, me: Holder, leaseRead: nat, listRead: nat)
    requires WellFormed(w) && leaseRead < |w.history| && listRead < |w.history|
  {
    var view, stored := w.history[leaseRead].lease, Now(w).lease;
    || (view.None? && stored.None?)
    || HolderOf(view) == Some(me)
    || (view.Some? && SameVersion(view, stored) && Takeable(w, HolderOf(view), listRead))
  }

  /** Nobody holds the lease, or a backup that the list does not show unfinished. */
  ghost predicate Takeable(w: World, holder: Option<Holder>, listRead: nat)
    requires listRead < |w.history|
  {
    var s := w.history[listRead];
    holder.Some? ==> holder.value.name in s.backups && s.backups[holder.value.name].uid == holder.value.uid ==>
      Terminal(s.backups[holder.value.name].status.state)
  }

  /** The lease the attempt would take over has gone in the meantime. */
  ghost predicate Slips(w: World, me: Holder, leaseRead: nat, listRead: nat)
    requires WellFormed(w) && leaseRead < |w.history| && listRead < |w.history|
  {
    var view := w.history[leaseRead].lease;
    view.Some? && Now(w).lease.None? && HolderOf(view) != Some(me) && Takeable(w, HolderOf(view), listRead)
  }

  /**
   What a lease attempt leads to, for copies of any age: the backup goes on, or its stored status
   becomes Waiting, or Error if the lease slipped away; nothing else of it changes.
   */
  lemma AttemptStores(w: World, n: string, leaseRead: nat, listRead: nat)
    requires Inv(w) && Standing(Now(w), n) && WorkerOf(w, n).Deciding? && Unstarted(WorkerOf(w, n).base.state)
    requires leaseRead < |w.history| && listRead < |w.history|
    ensures var w1, me := Step(w, Acquire(n, leaseRead, listRead)), Holder(n, Now(w).backups[n].uid);
            && (Gets(w, me, leaseRead, listRead) <==> WorkerOf(w1, n).Ensuring?)
            && (!Gets(w, me, leaseRead, listRead) ==>
                  && Enabled(w1, WriteStatus(n)) && Now(w1).lease == Now(w).lease
                  && var after := Now(Step(w1, WriteStatus(n)));
                     var state := if Slips(w, me, leaseRead, listRead) then Error else Waiting;
                     && n in after.backups && after.backups[n].uid == Now(w).backups[n].uid
                     && after.backups[n].status == Now(w).backups[n].status.(state := state)
                     && WorkerOf(Step(w1, WriteStatus(n)), n) == if state == Error then Releasing(me.uid) else Idle)
  {
    assert WorkerOk(Now(w), n, WorkerOf(w, n));
  }

  /** The backup waits where it did: the object is the one it was, and `h` still holds the lease. */
  ghost predicate LeftWaiting(w: World, n: string, h: Holder, w': World)
    requires WellFormed(w) && WellFormed(w') && n in Now(w).backups
  {
    && n in Now(w').backups && Now(w').backups[n].uid == Now(w).backups[n].uid
    && Now(w').backups[n].status == Now(w).backups[n].status.(state := Waiting)
    && HoldsLease(Now(w'), h) && WorkerOf(w', n).Idle?
  }

  /** With current copies and another unfinished backup holding the lease, the backup waits and is not lost. */
  lemma BusyMeansWaiting(w: World, n: string, h: Holder) returns (w1: World, w2: World)
    requires Inv(w) && Standing(Now(w), n) && WorkerOf(w, n).Deciding? && Unstarted(WorkerOf(w, n).base.state)
    requires HoldsLease(Now(w), h) && Live(Now(w), h) && h != Holder(n, Now(w).backups[n].uid)
    ensures var a := Acquire(n, |w.history| - 1, |w.history| - 1); Enabled(w, a) && w1 == Step(w, a)
    ensures Enabled(w1, WriteStatus(n)) && w2 == Step(w1, WriteStatus(n))
    ensures LeftWaiting(w, n, h, w2)
  {
    var last := |w.history| - 1;
    NeverTaken(w, Holder(n, Now(w).backups[n].uid), h);
    AttemptStores(w, n, last, last);
    w1 := Step(w, Acquire(n, last, last));
    w2 := Step(w1, WriteStatus(n));
  }

  lemma NeverTaken(w: World, me: Holder, h: Holder)
    requires WellFormed(w) && HoldsLease(Now(w), h) && Live(Now(w), h) && h != me
    ensures var last := |w.history| - 1; !Gets(w, me, last, last) && !Slips(w, me, last, last)
  {
  }

  // ---------------------------------------------------------------- a backup that waits can start

  /** New or Waiting, between two reconciles, and nobody wants it cancelled. */
  ghost predicate Eligible(w: World, n: string) {
    && WellFormed(w) && n in Now(w).backups && WorkerOf(w, n).Idle?
    && Unstarted(Now(w).backups[n].status.state)
    && !Now(w).backups[n].deleting && !Now(w).backups[n].cancelAnnotation
  }

  /** The lease is free, names the backup itself, or one that has finished or gone. */
  predicate Obtainable(s: Store, me: Holder) {
    HolderOf(s.lease) == Some(me) || HolderStale(s, HolderOf(s.lease))
  }

  lemma ReadsAndAcquires(w: World, n: string)
    requires Inv(w) && Eligible(w, n) && Obtainable(Now(w), Holder(n, Now(w).backups[n].uid))
    ensures var w1, last := Step(w, Begin(n)), |w.history|;
            && Allowed(w, Begin(n), None) && Allowed(w1, Acquire(n, last, last), None)
            && var w2, b := Step(w1, Acquire(n, last, last)), Now(w).backups[n];
               && Now(w2).backups == Now(w).backups && HoldsLease(Now(w2), Holder(n, b.uid))
               && WorkerOf(w2, n) == Ensuring(b.uid, b.status, ReleaseLock in b.finalizers)
  {
    var w1, last := Step(w, Begin(n)), |w.history|;
    assert Remembers(w.history[|w.history| - 1], Now(w));
    assert Now(w1) == Now(w) && w1.history[last] == Now(w);
    assert UidsBelow(Now(w));
  }

  lemma EnsuresAndSends(w: World, n: string, pbmName: string)
    requires WellFormed(w) && n in Now(w).backups && !Now(w).backups[n].deleting && pbmName != ""
    requires WorkerOf(w, n).Ensuring? && Unstarted(WorkerOf(w, n).base.state)
    requires HoldsLease(Now(w), Holder(n, Now(w).backups[n].uid))
    ensures var w1 := Step(w, EnsureFinalizer(n));
            && Allowed(w, EnsureFinalizer(n), None) && Allowed(w1, SendCommand(n, pbmName), None)
            && Allowed(Step(w1, SendCommand(n, pbmName)), WriteStatus(n), None)
            && var s := NextStore(Step(w1, SendCommand(n, pbmName)), WriteStatus(n));
               && n in s.backups && s.backups[n].status == Status(Requested, pbmName)
               && HoldsLease(s, Holder(n, s.backups[n].uid))
  {
  }

  /** Once the lease can be had, some run that keeps to the assumptions starts the backup under it. */
  lemma WaitingCanStart(w: World, n: string, pbmName: string) returns (actions: seq<Action>, w': World)
    requires Inv(w) && Eligible(w, n) && Obtainable(Now(w), Holder(n, Now(w).backups[n].uid)) && pbmName != ""
    ensures Leads(w, actions, w', None)
    ensures n in Now(w').backups && Now(w').backups[n].status == Status(Requested, pbmName)
    ensures Started(Now(w').backups[n]) && HoldsLease(Now(w'), Holder(n, Now(w').backups[n].uid))
  {
    var last := |w.history|;
    var a1, a2, a3 := Begin(n), Acquire(n, last, last), EnsureFinalizer(n);
    var a4, a5 := SendCommand(n, pbmName), WriteStatus(n);
    ReadsAndAcquires(w, n);
    var w2 := Step(Step(w, a1), a2);
    EnsuresAndSends(w2, n, pbmName);
    assert Leads(w, [], w, None);
    Onward(w, [], w, a1, None);
    Onward(w, [] + [a1], Step(w, a1), a2, None);
    Onward(w, [] + [a1] + [a2], w2, a3, None);
    Onward(w, [] + [a1] + [a2] + [a3], Step(w2, a3), a4, None);
    Onward(w, [] + [a1] + [a2] + [a3] + [a4], Step(Step(w2, a3), a4), a5, None);
    actions, w' := [] + [a1] + [a2] + [a3] + [a4] + [a5], Step(Step(Step(w2, a3), a4), a5);
  }

  // ---------------------------------------------------------------- what the other steps store

  /** The status a step of the reconcile is on its way to store, from the one that is stored. */
  predicate Stored(before: Status, pendingStart: bool, a: Action, after: Status) {
    match a
    case Park(_) => after == before.(state := Waiting)
    case Fail(_) => if pendingStart then after == Status(Error, "") else after == before.(state := Error)
    case SendCommand(_, pbmName) => after == Status(Requested, pbmName)
    case PollStatus(_, state) => after == before.(state := state)
    case DecideCancel(_, state) => after == before.(state := state)
    case _ => true
  }

  /** Parked backups wait, failed ones end in Error, polled ones take PBM's state: that is what the write stores. */
  lemma StepStores(w: World, a: Action, n: string)
    requires Inv(w) && Standing(Now(w), n) && Enabled(w, a) && a.n == n
    requires a.Park? || a.Fail? || a.SendCommand? || a.PollStatus? || a.DecideCancel?
    ensures var w1 := Step(w, a);
            && Enabled(w1, WriteStatus(n)) && Now(w1) == Now(w)
            && var after := NextStore(w1, WriteStatus(n));
               && n in after.backups && after.backups[n].uid == Now(w).backups[n].uid && after.lease == Now(w).lease
               && Stored(Now(w).backups[n].status, WorkerOf(w, n).Executing? && Unstarted(WorkerOf(w, n).base.state), a,
                         after.backups[n].status)
  {
    assert WorkerOk(Now(w), n, WorkerOf(w, n));
  }

  // ---------------------------------------------------------------- cancellation takes over

  /** The reconcile is past the point of starting anything. */
  ghost predicate NoStartAhead(w: World, n: string) {
    var worker := WorkerOf(w, n);
    worker.Idle? || worker.Writing? || worker.Cancelling? || worker.Releasing?
  }

  /** An unfinished backup that is to be cancelled is marked so first, and its reconcile only cancels. */
  lemma CancellationTakesOver(w: World, n: string)
    requires Inv(w) && Standing(Now(w), n) && WorkerOf(w, n).Idle?
    requires !Terminal(Now(w).backups[n].status.state)
    requires || Now(w).backups[n].deleting || Now(w).backups[n].cancelAnnotation
             || Now(w).backups[n].status.state == Canceling
    ensures Enabled(w, Begin(n)) && NoStartAhead(Step(w, Begin(n)), n)
    ensures var w1, b := Step(w, Begin(n)), Now(w).backups[n];
            if b.status.state == Canceling then WorkerOf(w1, n) == Cancelling(b.uid, b.status)
            else && Enabled(w1, WriteStatus(n))
                 && var w2 := Step(w1, WriteStatus(n));
                    && n in Now(w2).backups && Now(w2).backups[n].status == b.status.(state := Canceling)
                    && WorkerOf(w2, n) == Cancelling(b.uid, b.status.(state := Canceling))
  {
  }

  lemma {:induction false} CancellingNeverSends(w: World, actions: seq<Action>, n: string, pbmName: string)
    requires WellFormed(w) && NoStartAhead(w, n) && Runnable(w, actions) && AllInFlight(actions, n)
    ensures !Enabled(Run(w, actions), SendCommand(n, pbmName)) && NoStartAhead(Run(w, actions), n)
    decreases |actions|
  {
    if actions == [] {
    } else {
      CancellingNeverSends(Step(w, actions[0]), actions[1..], n, pbmName);
    }
  }

  // ---------------------------------------------------------------- the way out

  /** The next reconcile of a finished backup that still holds the lease frees it, and changes nothing else. */
  lemma FinishedFreesLease(w: World, n: string)
    requires Inv(w) && n in Now(w).backups && WorkerOf(w, n).Idle? && !Now(w).backups[n].deleting
    requires Terminal(Now(w).backups[n].status.state) && HoldsLease(Now(w), Holder(n, Now(w).backups[n].uid))
    ensures var w1, last := Step(w, Begin(n)), |w.history| - 1;
            && Allowed(w, Begin(n), None) && Allowed(w1, Release(n, last), None)
            && var w' := Step(w1, Release(n, last));
               Now(w').lease == None && Now(w').backups == Now(w).backups && WorkerOf(w', n).Idle?
  {
    var w1, last := Step(w, Begin(n)), |w.history| - 1;
    assert w1.history[last] == Now(w) == Now(w1);
  }

  /** The reconcile of a finished backup being deleted frees its lease and, its handlers done, lets the object go. */
  lemma DeletionCompletes(w: World, n: string)
    requires Inv(w) && n in Now(w).backups && WorkerOf(w, n).Idle? && Now(w).backups[n].deleting
    requires Terminal(Now(w).backups[n].status.state)
    ensures var w1, last := Step(w, Begin(n)), |w.history| - 1;
            && Allowed(w, Begin(n), None) && Allowed(w1, Release(n, last), None)
            && var w2 := Step(w1, Release(n, last));
               && Allowed(w2, UpdateFinalizers(n, {}), None)
               && var s := NextStore(w2, UpdateFinalizers(n, {}));
                  n !in s.backups && !HoldsLease(s, Holder(n, Now(w).backups[n].uid))
  {
    var w1, last := Step(w, Begin(n)), |w.history| - 1;
    assert w1.history[last] == Now(w) == Now(w1);
    NothingFails(Now(w).backups[n].finalizers, Now(w).backups[n].status.state);
  }

  lemma NothingFails(finalizers: seq<Finalizer>, state: BackupState)
    ensures Kept(finalizers, state, {}) == []
  {
    var kept := Kept(finalizers, state, {});
    if kept != [] {
      KeptExactly(finalizers, state, {}, kept[0]);
    }
  }

  /** A deletion whose handlers failed keeps the object, with just the finalizers of those. */
  lemma FailedHandlersKeepTheObject(w: World, n: string, failed: set<Finalizer>, f: Finalizer)
    requires Inv(w) && Standing(Now(w), n) && Enabled(w, UpdateFinalizers(n, failed)) && Now(w).backups[n].deleting
    ensures var s, b := NextStore(w, UpdateFinalizers(n, failed)), Now(w).backups[n];
            && (f in WorkerOf(w, n).finalizers && Handles(f, b.status.state) && f in failed ==>
                  n in s.backups && f in s.backups[n].finalizers)
            && (n in s.backups ==>
                  && s.backups[n].status == b.status && s.backups[n].uid == b.uid
                  && (f in s.backups[n].finalizers ==> Handles(f, b.status.state) && f in failed))
  {
    assert WorkerOk(Now(w), n, WorkerOf(w, n));
    KeptExactly(WorkerOf(w, n).finalizers, Now(w).backups[n].status.state, failed, f);
  }
}
