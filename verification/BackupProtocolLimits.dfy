/**
 Backups without one of the three assumptions: for each, the exact condition under which a step
 takes the lease from a live backup or starts one without it, and a run with two started backups
 that keeps to the other two assumptions.
 */
module BackupProtocolLimits {
  import opened Options
  import opened Leases
  import opened BackupProtocol
  import opened BackupProtocolProofs

  // ---------------------------------------------------------------- exact conditions

  /**
   An acquire displaces a live holder if and only if it acts at all, its copy of the lease is the
   stored one, and the list it read is older than the holder.
   */
  lemma TakeoverExactly(w: World, a: Action, h: Holder)
    requires Inv(w) && a.Acquire? && Enabled(w, a)
    requires HoldsLease(Now(w), h) && Live(Now(w), h) && h != Holder(a.n, WorkerOf(w, a.n).uid)
    ensures !HoldsLease(NextStore(w, a), h) <==>
              && Pending(WorkerOf(w, a.n).base.state)
              && SameVersion(w.history[a.leaseRead].lease, Now(w).lease)
              && !HasSeen(w.history[a.listRead], h.uid)
  {
    assert Remembers(w.history[a.leaseRead], Now(w));
    assert Irrevocable(w.history[a.listRead], Now(w), h);
    assert UidsBelow(w.history[a.listRead]);
  }

  /** Of all actions, disciplined or not, only such an acquire takes the lease from a live holder. */
  lemma LeaseLossExactly(w: World, a: Action, h: Holder)
    requires Inv(w) && Enabled(w, a) && HoldsLease(Now(w), h) && Live(Now(w), h)
    ensures !HoldsLease(NextStore(w, a), h) <==>
              && a.Acquire? && h != Holder(a.n, WorkerOf(w, a.n).uid)
              && Pending(WorkerOf(w, a.n).base.state)
              && SameVersion(w.history[a.leaseRead].lease, Now(w).lease)
              && !HasSeen(w.history[a.listRead], h.uid)
  {
    if a.Acquire? && h != Holder(a.n, WorkerOf(w, a.n).uid) {
      TakeoverExactly(w, a, h);
    } else if a.Acquire? {
      assert Remembers(w.history[a.leaseRead], Now(w));
    } else if a.Release? && !HoldsLease(NextStore(w, a), h) {
      ReleaseIsOwn(w, a);
    }
  }

  /** A "not found" about a backup that exists comes from a copy older than the backup. */
  lemma NotFoundIsOld(w: World, n: string, read: nat)
    requires Inv(w) && n in Now(w).backups && !Terminal(Now(w).backups[n].status.state)
    requires read < |w.history| && n !in w.history[read].backups
    ensures !HasSeen(w.history[read], Now(w).backups[n].uid)
  {
    assert Irrevocable(w.history[read], Now(w), Holder(n, Now(w).backups[n].uid));
  }

  /** The status write is answered "not found" from store `read`, and the release that follows takes the lease. */
  ghost predicate LosesByNotFound(w: World, n: string, read: nat, leaseRead: nat, h: Holder)
    requires WellFormed(w)
  {
    var write, release := WriteStatusNotFound(n, read), Release(n, leaseRead);
    && Enabled(w, write) && Enabled(Step(w, write), release)
    && !HoldsLease(NextStore(Step(w, write), release), h)
  }

  /**
   A backup about to write a status, existing and holding the lease, loses it this way if and only
   if that status is terminal, the copy read does not have the backup, and the lease copy is the
   stored one.
   */
  lemma NotFoundReleasesExactly(w: World, n: string, read: nat, leaseRead: nat)
    requires Inv(w) && WorkerOf(w, n).Writing? && n in Now(w).backups
    requires HoldsLease(Now(w), Holder(n, WorkerOf(w, n).uid))
    requires read < |w.history| && leaseRead < |w.history|
    ensures LosesByNotFound(w, n, read, leaseRead, Holder(n, WorkerOf(w, n).uid)) <==>
              && Terminal(WorkerOf(w, n).next.state)
              && n !in w.history[read].backups
              && SameVersion(w.history[leaseRead].lease, Now(w).lease)
    ensures n !in w.history[read].backups ==> !HasSeen(w.history[read], WorkerOf(w, n).uid)
  {
    assert WorkerOk(Now(w), n, WorkerOf(w, n));
    assert Remembers(w.history[leaseRead], Now(w));
    if n !in w.history[read].backups {
      NotFoundIsOld(w, n, read);
      assert Step(w, WriteStatusNotFound(n, read)).history[leaseRead] == w.history[leaseRead];
    }
  }

  // ---------------------------------------------------------------- a name reused

  /** An action of the reconcile in flight for `n`. */
  predicate InFlight(a: Action, n: string) {
    a.n == n && !a.CreateBackup? && !a.RequestDelete? && !a.RequestCancel? && !a.Begin?
  }

  predicate AllInFlight(actions: seq<Action>, n: string) {
    forall i :: 0 <= i < |actions| ==> InFlight(actions[i], n)
  }

  /** An acquire that keeps to the assumptions may report success to `me`. */
  ghost predicate CanAcquire(w: World, me: Holder)
    requires WellFormed(w)
  {
    || HolderOf(Now(w).lease).None?
    || !Live(Now(w), HolderOf(Now(w).lease).value)
    || exists i :: 0 <= i < |w.history| && HoldsLease(w.history[i], me)
  }

  /** Left to itself, the reconcile in flight may yet write the status of a started backup. */
  ghost predicate CarriesStart(w: World, n: string)
    requires WellFormed(w)
  {
    match WorkerOf(w, n)
    case Deciding(uid, base, _) => base.pbmName != "" || (Pending(base.state) && CanAcquire(w, Holder(n, uid)))
    case Ensuring(_, base, _) => base.pbmName != "" || Pending(base.state)
    case Executing(_, base) => base.pbmName != "" || Pending(base.state)
    case Writing(_, _, next, thenCancel) => next.pbmName != "" && (!Terminal(next.state) || thenCancel)
    case Cancelling(_, base) => base.pbmName != ""
    case _ => false
  }

  ghost predicate StartedWithoutLease(s: Store, n: string) {
    n in s.backups && Started(s.backups[n]) && !HoldsLease(s, Holder(n, s.backups[n].uid))
  }

  ghost predicate Harmless(w: World, n: string) {
    && WellFormed(w)
    && (n in Now(w).backups ==> !Started(Now(w).backups[n]))
    && !CarriesStart(w, n)
    && (WorkerOf(w, n).Deciding? ==> HistoryOk(w))
  }

  /** An acquire that reports success could. */
  lemma AcquiredCould(w: World, a: Action)
    requires WellFormed(w) && HistoryOk(w) && a.Acquire? && Enabled(w, a) && Disciplined(w, a)
    requires Pending(WorkerOf(w, a.n).base.state) && AcquireResult(w, a).1.Acquired?
    ensures CanAcquire(w, Holder(a.n, WorkerOf(w, a.n).uid))
  {
    var view := w.history[a.leaseRead].lease;
    assert Remembers(w.history[a.leaseRead], Now(w));
    if HolderOf(view) == Some(Holder(a.n, WorkerOf(w, a.n).uid)) {
      assert HoldsLease(w.history[a.leaseRead], Holder(a.n, WorkerOf(w, a.n).uid));
    } else if HolderOf(view).Some? {
      assert Irrevocable(w.history[a.listRead], Now(w), HolderOf(view).value);
    }
  }

  lemma HarmlessStep(w: World, a: Action, n: string)
    requires Harmless(w, n) && Enabled(w, a) && Disciplined(w, a) && InFlight(a, n)
    ensures Harmless(Step(w, a), n)
  {
    if a.Acquire? && Pending(WorkerOf(w, n).base.state) && AcquireResult(w, a).1.Acquired? {
      AcquiredCould(w, a);
    }
  }

  lemma {:induction false} HarmlessRun(w: World, actions: seq<Action>, n: string)
    requires Harmless(w, n) && Runnable(w, actions) && DisciplinedRun(w, actions) && AllInFlight(actions, n)
    ensures Harmless(Run(w, actions), n)
    decreases |actions|
  {
    if actions == [] {
    } else {
      HarmlessStep(w, actions[0], n);
      HarmlessRun(Step(w, actions[0]), actions[1..], n);
    }
  }

  /** Creating an object, even under a name in use by a reconcile, changes nothing the history remembers. */
  lemma CreationKeepsHistory(w: World, n: string, finalizers: seq<Finalizer>)
    requires Inv(w) && Enabled(w, CreateBackup(n, finalizers))
    ensures HistoryOk(Step(w, CreateBackup(n, finalizers)))
  {
    var w' := Step(w, CreateBackup(n, finalizers));
    assert Remembers(w.history[|w.history| - 1], Now(w));
    forall i | 0 <= i < |w'.history|
      ensures Remembers(w'.history[i], Now(w')) && forall h :: Irrevocable(w'.history[i], Now(w'), h)
    {
      if i < |w.history| {
        assert Remembers(w.history[i], Now(w));
        forall h ensures Irrevocable(w'.history[i], Now(w'), h) {
          assert Irrevocable(w.history[i], Now(w), h);
        }
      }
    }
  }

  /** Nor does it change what the reconcile may do. */
  lemma CreationKeepsCarrying(w: World, n: string, finalizers: seq<Finalizer>)
    requires Inv(w) && Enabled(w, CreateBackup(n, finalizers))
    ensures CarriesStart(Step(w, CreateBackup(n, finalizers)), n) == CarriesStart(w, n)
  {
    var w' := Step(w, CreateBackup(n, finalizers));
    var worker := WorkerOf(w, n);
    assert Remembers(w.history[|w.history| - 1], Now(w));
    if worker.Deciding? {
      var me := Holder(n, worker.uid);
      if exists i :: 0 <= i < |w'.history| && HoldsLease(w'.history[i], me) {
        var i :| 0 <= i < |w'.history| && HoldsLease(w'.history[i], me);
        var j := if i < |w.history| then i else i - 1;
        assert HoldsLease(w.history[j], me);
      }
      if exists i :: 0 <= i < |w.history| && HoldsLease(w.history[i], me) {
        var i :| 0 <= i < |w.history| && HoldsLease(w.history[i], me);
        assert HoldsLease(w'.history[i], me);
      }
    }
  }

  // ---------------------------------------------------------------- runs, one action at a time

  /** `actions` lead from `w` to `w'` and keep to the assumptions, or to all of them but one. */
  ghost predicate Leads(w: World, actions: seq<Action>, w': World, but: Option<Assumption>) {
    && WellFormed(w) && Runnable(w, actions) && Run(w, actions) == w'
    && (if but.None? then DisciplinedRun(w, actions) else DisciplinedBut(w, actions, but.value))
  }

  ghost predicate Allowed(w: World, a: Action, but: Option<Assumption>) {
    && WellFormed(w) && Enabled(w, a)
    && (if but.None? then Disciplined(w, a) else AllBut(w, a, but.value))
  }

  lemma {:induction false} Onward(w: World, actions: seq<Action>, w': World, a: Action, but: Option<Assumption>)
    requires Leads(w, actions, w', but) && Allowed(w', a, but)
    ensures Leads(w, actions + [a], Step(w', a), but)
    decreases |actions|
  {
    if actions == [] {
      assert actions + [a] == [a] && [a][1..] == [];
    } else {
      assert (actions + [a])[1..] == actions[1..] + [a];
      Onward(Step(w, actions[0]), actions[1..], w', a, but);
    }
  }

  /** The reconcile of an absent object has not seen the lock on it, and is not past ensuring it. */
  lemma InFlightForAbsent(w: World, n: string)
    requires Inv(w) && n !in Now(w).backups
    ensures !WorkerOf(w, n).Executing?
    ensures WorkerOf(w, n).Deciding? || WorkerOf(w, n).Ensuring? ==> !WorkerOf(w, n).locked
    ensures WorkerOf(w, n).Writing? && WorkerOf(w, n).thenCancel ==> WorkerOf(w, n).next.state == Canceling
    ensures !WorkerOf(w, n).Idle? ==> WorkerOf(w, n).uid < Now(w).nextUid
  {
    assert WorkerOk(Now(w), n, WorkerOf(w, n));
  }

  /** A world in which the object under the name is not the one its reconcile is about. */
  ghost predicate Reused(w: World, n: string) {
    && WellFormed(w) && n in Now(w).backups && !Now(w).backups[n].deleting
    && !HoldsLease(Now(w), Holder(n, Now(w).backups[n].uid))
  }

  /** Whatever status the reconcile writes lands on the new object. */
  lemma WriteLands(w: World, n: string)
    requires Reused(w, n) && WorkerOf(w, n).Writing?
    requires WorkerOf(w, n).next.pbmName != "" && !Terminal(WorkerOf(w, n).next.state)
    ensures Allowed(w, WriteStatus(n), None) && StartedWithoutLease(NextStore(w, WriteStatus(n)), n)
  {
  }

  /** A step of the reconcile that leaves the new object without the lease. */
  lemma StepKeepsReused(w: World, a: Action, n: string)
    requires Reused(w, n) && Enabled(w, a) && InFlight(a, n)
    requires || a.Park? || a.SendCommand? || a.PollStatus? || a.DecideCancel?
             || (a.EnsureFinalizer? && !WorkerOf(w, n).locked)
    ensures Reused(Step(w, a), n) && Allowed(w, a, None)
  {
  }

  /** From the point where the lease was found held: the finalizer, the command or a poll, and the status write. */
  lemma FromEnsuring(w: World, acts: seq<Action>, v: World, n: string) returns (actions: seq<Action>, w': World)
    requires Leads(w, acts, v, None) && AllInFlight(acts, n) && Reused(v, n)
    requires WorkerOf(v, n).Ensuring? && !WorkerOf(v, n).locked
    requires WorkerOf(v, n).base.pbmName != "" || Pending(WorkerOf(v, n).base.state)
    ensures Leads(w, actions, w', None) && AllInFlight(actions, n) && StartedWithoutLease(Now(w'), n)
  {
    var ensure := EnsureFinalizer(n);
    StepKeepsReused(v, ensure, n);
    Onward(w, acts, v, ensure, None);
    var v1 := Step(v, ensure);
    var go := if Pending(WorkerOf(v, n).base.state) then SendCommand(n, "2024") else PollStatus(n, Running);
    StepKeepsReused(v1, go, n);
    Onward(w, acts + [ensure], v1, go, None);
    actions, w' := FromWriting(w, acts + [ensure] + [go], Step(v1, go), n);
  }

  lemma FromWriting(w: World, acts: seq<Action>, v: World, n: string) returns (actions: seq<Action>, w': World)
    requires Leads(w, acts, v, None) && AllInFlight(acts, n) && Reused(v, n) && WorkerOf(v, n).Writing?
    requires WorkerOf(v, n).next.pbmName != "" && !Terminal(WorkerOf(v, n).next.state)
    ensures Leads(w, actions, w', None) && AllInFlight(actions, n) && StartedWithoutLease(Now(w'), n)
  {
    WriteLands(v, n);
    Onward(w, acts, v, WriteStatus(n), None);
    actions, w' := acts + [WriteStatus(n)], Step(v, WriteStatus(n));
  }

  /** An acquire that can succeed, with reads that keep to the assumptions. */
  lemma AcquireReads(w: World, n: string) returns (a: Action)
    requires Reused(w, n) && HistoryOk(w) && WorkerOf(w, n).Deciding? && Pending(WorkerOf(w, n).base.state)
    requires CanAcquire(w, Holder(n, WorkerOf(w, n).uid)) && Now(w).backups[n].uid != WorkerOf(w, n).uid
    ensures a.Acquire? && a.n == n && Allowed(w, a, None) && Reused(Step(w, a), n)
    ensures WorkerOf(Step(w, a), n) == Ensuring(WorkerOf(w, n).uid, WorkerOf(w, n).base, WorkerOf(w, n).locked)
  {
    var me, last := Holder(n, WorkerOf(w, n).uid), |w.history| - 1;
    assert Remembers(w.history[last], Now(w));
    if exists i :: 0 <= i < |w.history| && HoldsLease(w.history[i], me) {
      var i :| 0 <= i < |w.history| && HoldsLease(w.history[i], me);
      assert Remembers(w.history[i], Now(w));
      a := Acquire(n, i, last);
    } else {
      a := Acquire(n, last, last);
    }
  }

  lemma HarmfulRun(w: World, n: string, finalizers: seq<Finalizer>) returns (actions: seq<Action>, w': World)
    requires Inv(w) && Enabled(w, CreateBackup(n, finalizers)) && CarriesStart(w, n)
    ensures Leads(Step(w, CreateBackup(n, finalizers)), actions, w', None) && AllInFlight(actions, n)
    ensures StartedWithoutLease(Now(w'), n)
  {
    var v, worker := Step(w, CreateBackup(n, finalizers)), WorkerOf(w, n);
    InFlightForAbsent(w, n);
    CreationKeepsHistory(w, n, finalizers);
    CreationKeepsCarrying(w, n, finalizers);
    assert Remembers(w.history[|w.history| - 1], Now(w));
    assert Leads(v, [], v, None) && Reused(v, n);
    match worker
    case Writing(_, _, _, _) => actions, w' := FromWriting(v, [], v, n);
    case Ensuring(_, _, _) => actions, w' := FromEnsuring(v, [], v, n);
    case Cancelling(_, _) => actions, w' := WriteAfter(v, DecideCancel(n, Canceling), n);
    case Deciding(_, base, _) =>
      if base.pbmName != "" {
        actions, w' := WriteAfter(v, Park(n), n);
      } else {
        actions, w' := FromDeciding(v, n);
      }
  }

  /** One step of the reconcile that ends in a status of a started backup, and the write of it. */
  lemma WriteAfter(w: World, a: Action, n: string) returns (actions: seq<Action>, w': World)
    requires Reused(w, n) && Enabled(w, a) && InFlight(a, n) && (a.Park? || (a.DecideCancel? && a.state == Canceling))
    requires WorkerOf(w, n).base.pbmName != ""
    ensures Leads(w, actions, w', None) && AllInFlight(actions, n) && StartedWithoutLease(Now(w'), n)
  {
    assert Leads(w, [], w, None);
    StepKeepsReused(w, a, n);
    Onward(w, [], w, a, None);
    actions, w' := FromWriting(w, [] + [a], Step(w, a), n);
  }

  lemma FromDeciding(w: World, n: string) returns (actions: seq<Action>, w': World)
    requires Reused(w, n) && HistoryOk(w) && WorkerOf(w, n).Deciding? && !WorkerOf(w, n).locked
    requires Pending(WorkerOf(w, n).base.state) && CanAcquire(w, Holder(n, WorkerOf(w, n).uid))
    requires Now(w).backups[n].uid != WorkerOf(w, n).uid
    ensures Leads(w, actions, w', None) && AllInFlight(actions, n) && StartedWithoutLease(Now(w'), n)
  {
    assert Leads(w, [], w, None);
    var a := AcquireReads(w, n);
    Onward(w, [], w, a, None);
    actions, w' := FromEnsuring(w, [] + [a], Step(w, a), n);
  }

  /**
   Reusing a name is harmful exactly when the reconcile in flight may yet start a backup: then,
   and only then, can it leave the new object started without the lease, all its own reads keeping
   to the assumptions.
   */
  lemma ReuseExactly(w: World, n: string, finalizers: seq<Finalizer>)
    requires Inv(w) && Enabled(w, CreateBackup(n, finalizers))
    ensures (exists actions, w' ::
               && Leads(Step(w, CreateBackup(n, finalizers)), actions, w', None) && AllInFlight(actions, n)
               && StartedWithoutLease(Now(w'), n)) <==>
            CarriesStart(w, n)
  {
    var v := Step(w, CreateBackup(n, finalizers));
    if CarriesStart(w, n) {
      var actions, w' := HarmfulRun(w, n, finalizers);
    } else {
      CreationKeepsHistory(w, n, finalizers);
      CreationKeepsCarrying(w, n, finalizers);
      forall actions, w' | Leads(v, actions, w', None) && AllInFlight(actions, n)
        ensures !StartedWithoutLease(Now(w'), n)
      {
        HarmlessRun(v, actions, n);
      }
    }
  }

  // ---------------------------------------------------------------- three runs with two started backups

  ghost predicate TwoStarted(s: Store) {
    exists n, m :: n in s.backups && m in s.backups && n != m && Started(s.backups[n]) && Started(s.backups[m])
  }

  /** The world outside one backup, seen from another. */
  ghost predicate SameButFor(w: World, w': World, n: string)
    requires WellFormed(w) && WellFormed(w')
  {
    && (forall m :: m != n && m in Now(w).backups ==> m in Now(w').backups && Now(w').backups[m] == Now(w).backups[m])
    && (forall m :: m != n && m !in Now(w).backups ==> m !in Now(w').backups)
    && (forall m :: m != n ==> WorkerOf(w', m) == WorkerOf(w, m))
    && |w'.history| > |w.history| && w'.history[0] == w.history[0]
  }

  /** An action leaves every other backup and its reconcile alone. */
  lemma StepSame(w: World, a: Action)
    requires WellFormed(w) && Enabled(w, a)
    ensures SameButFor(w, Step(w, a), a.n)
  {
  }

  lemma SameTwice(w: World, w1: World, w2: World, n: string)
    requires WellFormed(w) && WellFormed(w1) && WellFormed(w2) && SameButFor(w, w1, n) && SameButFor(w1, w2, n)
    ensures SameButFor(w, w2, n)
  {
  }

  lemma ThreeMore(acts: seq<Action>, w: World, a1: Action, a2: Action, a3: Action, but: Option<Assumption>)
    returns (actions: seq<Action>, w': World)
    requires Leads(INITIAL, acts, w, but) && a1.n == a2.n == a3.n
    requires Allowed(w, a1, but) && Allowed(Step(w, a1), a2, but) && Allowed(Step(Step(w, a1), a2), a3, but)
    ensures Leads(INITIAL, actions, w', but) && w' == Step(Step(Step(w, a1), a2), a3)
    ensures SameButFor(w, w', a1.n)
  {
    var w1 := Step(w, a1);
    var w2 := Step(w1, a2);
    Onward(INITIAL, acts, w, a1, but);
    Onward(INITIAL, acts + [a1], w1, a2, but);
    Onward(INITIAL, acts + [a1] + [a2], w2, a3, but);
    actions, w' := acts + [a1] + [a2] + [a3], Step(w2, a3);
    StepSame(w, a1);
    StepSame(w1, a2);
    StepSame(w2, a3);
    SameTwice(w, w1, w2, a1.n);
    SameTwice(w, w2, w', a1.n);
  }

  /** A recorded start: the backup's reconcile is over and its lock is in place. */
  ghost predicate Launched(w: World, w': World, n: string)
    requires WellFormed(w) && WellFormed(w')
  {
    && Now(w').lease == Now(w).lease && Now(w').nextUid == Now(w).nextUid
    && n in Now(w).backups && n in Now(w').backups && Now(w').backups[n].uid == Now(w).backups[n].uid
    && Started(Now(w').backups[n]) && Now(w').backups[n].status.state == Requested
    && ReleaseLock in Now(w').backups[n].finalizers && !Now(w').backups[n].deleting
    && !CancellationRequested(Now(w').backups[n]) && WorkerOf(w', n).Idle?
  }

  /** From a lease just taken to a recorded start. */
  lemma LaunchSteps(w: World, n: string, pbmName: string, but: Option<Assumption>)
    requires WellFormed(w) && pbmName != ""
    requires n in Now(w).backups && !Now(w).backups[n].deleting && !Now(w).backups[n].cancelAnnotation
    requires WorkerOf(w, n).Ensuring? && WorkerOf(w, n).base == Status(New, "") && !WorkerOf(w, n).locked
    ensures Allowed(w, EnsureFinalizer(n), but)
    ensures var w1 := Step(w, EnsureFinalizer(n));
            Allowed(w1, SendCommand(n, pbmName), but) && Allowed(Step(w1, SendCommand(n, pbmName)), WriteStatus(n), but)
    ensures Launched(w, Step(Step(Step(w, EnsureFinalizer(n)), SendCommand(n, pbmName)), WriteStatus(n)), n)
  {
    var w1 := Step(w, EnsureFinalizer(n));
    var w2 := Step(w1, SendCommand(n, pbmName));
    assert Now(w2).backups == Now(w1).backups;
  }

  lemma Launch(acts: seq<Action>, w: World, n: string, but: Option<Assumption>)
    returns (actions: seq<Action>, w': World)
    requires Leads(INITIAL, acts, w, but)
    requires n in Now(w).backups && !Now(w).backups[n].deleting && !Now(w).backups[n].cancelAnnotation
    requires WorkerOf(w, n).Ensuring? && WorkerOf(w, n).base == Status(New, "") && !WorkerOf(w, n).locked
    ensures Leads(INITIAL, actions, w', but) && Launched(w, w', n) && SameButFor(w, w', n)
  {
    LaunchSteps(w, n, "2024", but);
    actions, w' := ThreeMore(acts, w, EnsureFinalizer(n), SendCommand(n, "2024"), WriteStatus(n), but);
  }

  /** The world after a fresh backup `n` took the lease. */
  ghost predicate Took(w: World, w': World, n: string)
    requires WellFormed(w) && WellFormed(w')
  {
    && HoldsLease(Now(w'), Holder(n, Now(w).nextUid))
    && n in Now(w').backups && Now(w').backups[n].uid == Now(w).nextUid && Now(w').nextUid == Now(w).nextUid + 1
    && !Now(w').backups[n].deleting && !Now(w').backups[n].cancelAnnotation && Now(w').backups[n].finalizers == []
    && WorkerOf(w', n) == Ensuring(Now(w).nextUid, Status(New, ""), false)
  }

  /** The copies an attempt decides on: the stored lease, and a list in which its holder is not live. */
  ghost predicate FindsStale(w: World, n: string, leaseRead: nat, listRead: nat)
    requires WellFormed(w)
  {
    && leaseRead < |w.history| && listRead < |w.history|
    && w.history[leaseRead].lease == Now(w).lease && HolderStale(w.history[listRead], HolderOf(Now(w).lease))
    && HolderOf(Now(w).lease) != Some(Holder(n, Now(w).nextUid))
  }

  /** A backup is created, its reconcile reads it and runs the lease attempt. */
  lemma AttemptSteps(w: World, n: string, leaseRead: nat, listRead: nat, but: Option<Assumption>)
    requires WellFormed(w) && n !in Now(w).backups && WorkerOf(w, n).Idle? && FindsStale(w, n, leaseRead, listRead)
    requires but == Some(ListSeesHolder) || HolderOf(Now(w).lease).None?
             || HasSeen(w.history[listRead], HolderOf(Now(w).lease).value.uid)
    ensures Allowed(w, CreateBackup(n, []), but)
    ensures var w1 := Step(w, CreateBackup(n, []));
            Allowed(w1, Begin(n), but) && Allowed(Step(w1, Begin(n)), Acquire(n, leaseRead, listRead), but)
    ensures Took(w, Step(Step(Step(w, CreateBackup(n, [])), Begin(n)), Acquire(n, leaseRead, listRead)), n)
  {
    var w1 := Step(w, CreateBackup(n, []));
    var w2 := Step(w1, Begin(n));
    assert WorkerOf(w2, n) == Deciding(Now(w).nextUid, Status(New, ""), false);
    assert w2.history[leaseRead] == w.history[leaseRead] && w2.history[listRead] == w.history[listRead];
  }

  lemma Attempt(acts: seq<Action>, w: World, n: string, leaseRead: nat, listRead: nat, but: Option<Assumption>)
    returns (actions: seq<Action>, w': World)
    requires Leads(INITIAL, acts, w, but)
    requires n !in Now(w).backups && WorkerOf(w, n).Idle? && FindsStale(w, n, leaseRead, listRead)
    requires but == Some(ListSeesHolder) || HolderOf(Now(w).lease).None?
             || HasSeen(w.history[listRead], HolderOf(Now(w).lease).value.uid)
    ensures Leads(INITIAL, actions, w', but) && Took(w, w', n) && SameButFor(w, w', n)
  {
    AttemptSteps(w, n, leaseRead, listRead, but);
    actions, w' := ThreeMore(acts, w, CreateBackup(n, []), Begin(n), Acquire(n, leaseRead, listRead), but);
  }

  /** Two attempts one after the other: the second starts next to the first. */
  lemma SecondStarts(acts: seq<Action>, w: World, leaseRead: nat, listRead: nat, but: Option<Assumption>)
    returns (actions: seq<Action>, w': World)
    requires Leads(INITIAL, acts, w, but) && "a" in Now(w).backups && Started(Now(w).backups["a"])
    requires "b" !in Now(w).backups && WorkerOf(w, "b").Idle? && FindsStale(w, "b", leaseRead, listRead)
    requires but == Some(ListSeesHolder) || HolderOf(Now(w).lease).None?
             || HasSeen(w.history[listRead], HolderOf(Now(w).lease).value.uid)
    ensures Leads(INITIAL, actions, w', but) && TwoStarted(Now(w'))
  {
    var acts1, w1 := Attempt(acts, w, "b", leaseRead, listRead, but);
    actions, w' := Launch(acts1, w1, "b", but);
    assert Started(Now(w').backups["a"]) && Started(Now(w').backups["b"]);
  }

  lemma FirstTakes(but: Option<Assumption>) returns (actions: seq<Action>, w: World)
    ensures Leads(INITIAL, actions, w, but) && Took(INITIAL, w, "a") && SameButFor(INITIAL, w, "a")
  {
    assert Leads(INITIAL, [], INITIAL, but);
    actions, w := Attempt([], INITIAL, "a", 0, 0, but);
  }

  /** Backup "a", UID 0, is started under the lease. */
  lemma FirstStarts(but: Option<Assumption>) returns (actions: seq<Action>, w: World)
    ensures Leads(INITIAL, actions, w, but)
    ensures "a" in Now(w).backups && Started(Now(w).backups["a"]) && Now(w).backups["a"].uid == 0
    ensures Now(w).backups["a"].status.state == Requested && ReleaseLock in Now(w).backups["a"].finalizers
    ensures !CancellationRequested(Now(w).backups["a"]) && WorkerOf(w, "a").Idle?
    ensures "b" !in Now(w).backups && WorkerOf(w, "b").Idle? && HoldsLease(Now(w), Holder("a", 0))
              && Now(w).nextUid == 1
    ensures |w.history| > 1 && w.history[0] == INITIAL.history[0]
  {
    var acts1, w1 := FirstTakes(but);
    actions, w := Launch(acts1, w1, "a", but);
  }

  /** Two started backups in a run that breaks no assumption but the one about the list: it is older than the holder. */
  lemma UnseenHolderBreaksExclusion() returns (actions: seq<Action>)
    ensures Runnable(INITIAL, actions) && DisciplinedBut(INITIAL, actions, ListSeesHolder)
    ensures TwoStarted(Now(Run(INITIAL, actions)))
  {
    var acts1, w1 := FirstStarts(Some(ListSeesHolder));
    var w2;
    actions, w2 := SecondStarts(acts1, w1, |w1.history| - 1, 0, Some(ListSeesHolder));
  }

  /** Deleting a backup no finalizer holds, and creating another under its name, leaves its reconcile in flight. */
  lemma Recreated(w: World, n: string)
    requires WellFormed(w) && n in Now(w).backups && Now(w).backups[n].finalizers == []
    ensures Allowed(w, RequestDelete(n), Some(NamesNotReused))
    ensures Allowed(Step(w, RequestDelete(n)), CreateBackup(n, []), Some(NamesNotReused))
    ensures var w' := Step(Step(w, RequestDelete(n)), CreateBackup(n, []));
            && n in Now(w').backups && !Now(w').backups[n].deleting && !Now(w').backups[n].cancelAnnotation
            && Now(w').backups[n].uid == Now(w).nextUid
            && Now(w').nextUid == Now(w).nextUid + 1 && Now(w').lease == Now(w).lease
            && WorkerOf(w', n) == WorkerOf(w, n) && SameButFor(w, w', n)
  {
    var w1 := Step(w, RequestDelete(n));
    StepSame(w, RequestDelete(n));
    StepSame(w1, CreateBackup(n, []));
    SameTwice(w, w1, Step(w1, CreateBackup(n, [])), n);
  }

  /**
   Two started backups in a run that breaks no assumption but the one about names: the backup is
   deleted after its lease was taken and before its finalizer was written, an object of the same
   name appears, and the finalizer and the status, both written by name, land on the new object.
   */
  lemma NameReuseBreaksExclusion() returns (actions: seq<Action>)
    ensures Runnable(INITIAL, actions) && DisciplinedBut(INITIAL, actions, NamesNotReused)
    ensures TwoStarted(Now(Run(INITIAL, actions)))
  {
    var but := Some(NamesNotReused);
    var acts1, w1 := ReusedNameStarts();
    assert !Live(Now(w1), Holder("a", 0));
    var w2;
    actions, w2 := SecondStarts(acts1, w1, |w1.history| - 1, |w1.history| - 1, but);
  }

  /** The first half: backup "a" is started under UID 1 while the lease is held under UID 0. */
  lemma ReusedNameStarts() returns (actions: seq<Action>, w: World)
    ensures Leads(INITIAL, actions, w, Some(NamesNotReused))
    ensures "a" in Now(w).backups && Started(Now(w).backups["a"]) && Now(w).backups["a"].uid == 1
    ensures "b" !in Now(w).backups && WorkerOf(w, "b").Idle? && HoldsLease(Now(w), Holder("a", 0))
              && Now(w).nextUid == 2
  {
    var but := Some(NamesNotReused);
    var acts1, w1 := FirstTakes(but);
    var delete, create := RequestDelete("a"), CreateBackup("a", []);
    Recreated(w1, "a");
    Onward(INITIAL, acts1, w1, delete, but);
    Onward(INITIAL, acts1 + [delete], Step(w1, delete), create, but);
    actions, w := Launch(acts1 + [delete] + [create], Step(Step(w1, delete), create), "a", but);
  }

  /**
   Two started backups in a run that breaks no assumption but the one about the status write: a
   started backup is polled as failed, the write of that status is answered "not found" by a copy
   older than the backup, and its lease is released.
   */
  lemma UnseenBackupBreaksExclusion() returns (actions: seq<Action>)
    ensures Runnable(INITIAL, actions) && DisciplinedBut(INITIAL, actions, GetSeesBackup)
    ensures TwoStarted(Now(Run(INITIAL, actions)))
  {
    var but := Some(GetSeesBackup);
    var acts1, w1 := FirstStarts(but);
    var acts2, w2 := PolledAsFailed(acts1, w1);
    var acts3, w3 := ReleasedWhileStarted(acts2, w2);
    var w4;
    actions, w4 := SecondStarts(acts3, w3, |w3.history| - 1, |w3.history| - 1, but);
  }

  /** A started backup between two reconciles. */
  ghost predicate Resting(w: World, n: string) {
    && WellFormed(w) && n in Now(w).backups && WorkerOf(w, n).Idle?
    && Now(w).backups[n].status.state == Requested && ReleaseLock in Now(w).backups[n].finalizers
    && !CancellationRequested(Now(w).backups[n])
    && (HolderOf(Now(w).lease).Some? ==> HasSeen(Now(w), HolderOf(Now(w).lease).value.uid))
  }

  /** Its next reconcile, up to the finalizer it finds in place. */
  lemma NextReconcile(w: World, n: string, but: Option<Assumption>)
    requires Resting(w, n)
    ensures Allowed(w, Begin(n), but)
    ensures var w1, last := Step(w, Begin(n)), |w.history| - 1;
            && Allowed(w1, Acquire(n, last, last), but)
            && Allowed(Step(w1, Acquire(n, last, last)), EnsureFinalizer(n), but)
    ensures var w1, last := Step(w, Begin(n)), |w.history| - 1;
            var w' := Step(Step(w1, Acquire(n, last, last)), EnsureFinalizer(n));
            && Now(w') == Now(w)
            && WorkerOf(w', n) == Executing(Now(w).backups[n].uid, Now(w).backups[n].status)
  {
    var w1, last := Step(w, Begin(n)), |w.history| - 1;
    assert WorkerOf(w1, n) == Deciding(Now(w).backups[n].uid, Now(w).backups[n].status, true);
    assert w1.history[last] == Now(w);
    var w2 := Step(w1, Acquire(n, last, last));
    assert WorkerOf(w2, n) == Ensuring(Now(w).backups[n].uid, Now(w).backups[n].status, true);
  }

  /** The reconcile finds the backup failed and is about to write that. */
  lemma PolledAsFailed(acts: seq<Action>, w: World) returns (actions: seq<Action>, w': World)
    requires Leads(INITIAL, acts, w, Some(GetSeesBackup)) && Resting(w, "a")
    ensures Leads(INITIAL, actions, w', Some(GetSeesBackup)) && Now(w') == Now(w) && SameButFor(w, w', "a")
    ensures WorkerOf(w', "a").Writing? && Terminal(WorkerOf(w', "a").next.state) && !WorkerOf(w', "a").thenCancel
    ensures WorkerOf(w', "a").uid == Now(w).backups["a"].uid
  {
    var but, last, poll := Some(GetSeesBackup), |w.history| - 1, PollStatus("a", Error);
    NextReconcile(w, "a", but);
    var acts1, w1 := ThreeMore(acts, w, Begin("a"), Acquire("a", last, last), EnsureFinalizer("a"), but);
    Onward(INITIAL, acts1, w1, poll, but);
    actions, w' := acts1 + [poll], Step(w1, poll);
    StepSame(w1, poll);
    SameTwice(w, w1, w', "a");
  }

  lemma ReleasedWhileStarted(acts: seq<Action>, w: World) returns (actions: seq<Action>, w': World)
    requires Leads(INITIAL, acts, w, Some(GetSeesBackup)) && "a" !in w.history[0].backups
    requires WorkerOf(w, "a").Writing? && Terminal(WorkerOf(w, "a").next.state) && !WorkerOf(w, "a").thenCancel
    requires HoldsLease(Now(w), Holder("a", WorkerOf(w, "a").uid))
    ensures Leads(INITIAL, actions, w', Some(GetSeesBackup))
    ensures Now(w').backups == Now(w).backups && Now(w').lease == None && Now(w').nextUid == Now(w).nextUid
    ensures forall m :: m != "a" ==> WorkerOf(w', m) == WorkerOf(w, m)
  {
    var but := Some(GetSeesBackup);
    var write, release := WriteStatusNotFound("a", 0), Release("a", |w.history| - 1);
    Onward(INITIAL, acts, w, write, but);
    var w1 := Step(w, write);
    assert w1.history[|w.history| - 1] == Now(w);
    Onward(INITIAL, acts + [write], w1, release, but);
    actions, w' := acts + [write] + [release], Step(w1, release);
  }
}
