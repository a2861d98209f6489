/**
 The backup controller as a state machine: any number of backup objects of one cluster, one
 reconcile in flight for each object, every API call its own step, users creating, cancelling
 and deleting backups in between, and a reconcile that may be cut off after any call.

 The whole history of the API server's store is kept. A read through the controller's cache
 returns the store as it was at any earlier point; the two reads of one acquire attempt may
 come from two different points.
 */
module BackupProtocol {
  import opened Options
  import opened Leases

  datatype BackupState = New | Waiting | Requested | Running | Error | Ready | Canceling | Canceled

  /** backupStateTerminal. */
  predicate Terminal(state: BackupState) {
    state == Ready || state == Error || state == Canceled
  }

  datatype Status = Status(state: BackupState, pbmName: string)

  datatype Finalizer = ReleaseLock | DeleteBackup | LegacyDeleteBackup | Unknown(name: string)

  datatype Backup = Backup(
    uid: nat,
    version: nat,
    status: Status,
    finalizers: seq<Finalizer>,
    deleting: bool,
    cancelAnnotation: bool)

  /** A backup whose command was sent and recorded and that has not finished. */
  predicate Started(b: Backup) {
    b.status.pbmName != "" && !Terminal(b.status.state)
  }

  /** cancellationRequested. */
  predicate CancellationRequested(b: Backup) {
    b.deleting || b.cancelAnnotation || b.status.state == Canceling
  }

  datatype Store = Store(lease: Option<Lease>, backups: map<string, Backup>, nextUid: nat, revision: nat)

  /** The holder's backup object exists and has not finished. */
  predicate Live(s: Store, h: Holder) {
    h.name in s.backups && s.backups[h.name].uid == h.uid && !Terminal(s.backups[h.name].status.state)
  }

  /** What checkStale answers when it lists the backups of store `s`. */
  predicate HolderStale(s: Store, h: Option<Holder>) {
    h.None? || !Live(s, h.value)
  }

  /**
   checkStale over the items a list call returned: the first item with the holder's identity
   decides, and no such item means the holder is gone.
   */
  method CheckStale(s: Store, items: seq<(string, Backup)>, holder: Option<Holder>) returns (stale: bool)
    requires forall n, b :: (n, b) in items <==> n in s.backups && s.backups[n] == b
    ensures stale == HolderStale(s, holder)
  {
    if holder.None? {
      return true;
    }
    for i := 0 to |items|
      invariant forall k :: 0 <= k < i ==> Holder(items[k].0, items[k].1.uid) != holder.value
    {
      var (name, backup) := items[i];
      if Holder(name, backup.uid) == holder.value {
        assert (name, backup) in items;
        return Terminal(backup.status.state);
      }
    }
    var h := holder.value;
    assert h.name in s.backups ==> (h.name, s.backups[h.name]) in items;
    return true;
  }

  /** The finalizers checkFinalizers writes back, given the ones whose handler failed. */
  function Kept(finalizers: seq<Finalizer>, state: BackupState, failed: set<Finalizer>): seq<Finalizer> {
    if finalizers == [] then []
    else
      var rest := Kept(finalizers[1..], state, failed);
      match finalizers[0]
      case ReleaseLock => if ReleaseLock in failed then [ReleaseLock] + rest else rest
      case DeleteBackup => if state == Ready && DeleteBackup in failed then [DeleteBackup] + rest else rest
      case LegacyDeleteBackup =>
        if state == Ready && LegacyDeleteBackup in failed then [LegacyDeleteBackup] + rest else rest
      case Unknown(_) => rest
  }

  /** The handlers the loop calls: a delete-backup one only for a Ready backup, the lock's always, no one else's. */
  predicate Handles(f: Finalizer, state: BackupState) {
    f == ReleaseLock || ((f == DeleteBackup || f == LegacyDeleteBackup) && state == Ready)
  }

  /** A finalizer stays exactly when it was attached, its handler was called, and that failed. */
  lemma {:induction false} KeptExactly(finalizers: seq<Finalizer>, state: BackupState, failed: set<Finalizer>,
                                       f: Finalizer)
    ensures f in Kept(finalizers, state, failed) <==> f in finalizers && Handles(f, state) && f in failed
  {
    if finalizers == [] {
    } else {
      assert finalizers == [finalizers[0]] + finalizers[1..];
      KeptExactly(finalizers[1..], state, failed, f);
    }
  }

  lemma {:induction false} KeptAppend(a: seq<Finalizer>, f: Finalizer, state: BackupState, failed: set<Finalizer>)
    ensures Kept(a + [f], state, failed) == Kept(a, state, failed) + Kept([f], state, failed)
  {
    if a == [] {
      assert a + [f] == [f];
    } else {
      assert (a + [f])[1..] == a[1..] + [f];
      KeptAppend(a[1..], f, state, failed);
    }
  }

  /** checkFinalizers' loop. */
  method CheckFinalizers(finalizers: seq<Finalizer>, state: BackupState, failed: set<Finalizer>)
    returns (kept: seq<Finalizer>)
    ensures kept == Kept(finalizers, state, failed)
  {
    kept := [];
    for i := 0 to |finalizers|
      invariant kept == Kept(finalizers[..i], state, failed)
    {
      var f := finalizers[i];
      assert finalizers[..i + 1] == finalizers[..i] + [f];
      KeptAppend(finalizers[..i], f, state, failed);
      match f {
        case LegacyDeleteBackup =>
          if state == Ready && f in failed {
            kept := kept + [f];
          }
        case DeleteBackup =>
          if state == Ready && f in failed {
            kept := kept + [f];
          }
        case ReleaseLock =>
          if f in failed {
            kept := kept + [f];
          }
        case Unknown(_) =>
      }
    }
    assert finalizers[..|finalizers|] == finalizers;
  }

  /** Where the reconcile of one backup stands, with the copy of the object it started from. */
  datatype Worker =
    | Idle
    | Deciding(uid: nat, base: Status, locked: bool)
    | Ensuring(uid: nat, base: Status, locked: bool)
    | Executing(uid: nat, base: Status)
    | Writing(uid: nat, base: Status, next: Status, thenCancel: bool)
    | Cancelling(uid: nat, base: Status)
    | Releasing(uid: nat)
    | Finalizing(uid: nat, version: nat, base: Status, finalizers: seq<Finalizer>, released: bool)

  datatype World = World(history: seq<Store>, workers: map<string, Worker>)

  predicate WellFormed(w: World) {
    |w.history| > 0
  }

  function Now(w: World): Store
    requires WellFormed(w)
  {
    w.history[|w.history| - 1]
  }

  function WorkerOf(w: World, n: string): Worker {
    if n in w.workers then w.workers[n] else Idle
  }

  datatype Action =
    | CreateBackup(n: string, finalizers: seq<Finalizer>)
    | RequestDelete(n: string)
    | RequestCancel(n: string)
    | Begin(n: string)
    | Abort(n: string)
    | Fail(n: string)
    | Park(n: string)
    | Acquire(n: string, leaseRead: nat, listRead: nat)
    | EnsureFinalizer(n: string)
    | SendCommand(n: string, pbmName: string)
    | PollStatus(n: string, state: BackupState)
    | DecideCancel(n: string, state: BackupState)
    | WriteStatus(n: string)
    | WriteStatusNotFound(n: string, read: nat)
    | Release(n: string, leaseRead: nat)
    | UpdateFinalizers(n: string, failed: set<Finalizer>)

  /** The worker a fresh read of the backup starts: the three early branches of Reconcile, then the main path. */
  function Dispatch(b: Backup): Worker {
    if !Terminal(b.status.state) && CancellationRequested(b) then
      if b.status.state == Canceling then Cancelling(b.uid, b.status)
      else Writing(b.uid, b.status, b.status.(state := Canceling), true)
    else if Terminal(b.status.state) && !b.deleting then Releasing(b.uid)
    else if b.deleting then Finalizing(b.uid, b.version, b.status, b.finalizers, false)
    else Deciding(b.uid, b.status, ReleaseLock in b.finalizers)
  }

  /** Only a backup still New or Waiting takes the lease and sends the command. */
  predicate Pending(state: BackupState) {
    state == New || state == Waiting
  }

  predicate Enabled(w: World, a: Action)
    requires WellFormed(w)
  {
    var s := Now(w);
    var worker := WorkerOf(w, a.n);
    match a
    case CreateBackup(n, _) => n !in s.backups
    case RequestDelete(n) => n in s.backups
    case RequestCancel(n) => n in s.backups
    case Begin(n) => worker.Idle? && n in s.backups
    case Abort(_) => !worker.Idle?
    case Fail(_) => worker.Deciding? || worker.Ensuring? || worker.Executing?
    case Park(_) => worker.Deciding?
    case Acquire(_, leaseRead, listRead) => worker.Deciding? && leaseRead < |w.history| && listRead < |w.history|
    case EnsureFinalizer(n) => worker.Ensuring? && (worker.locked || n in s.backups)
    case SendCommand(_, pbmName) => worker.Executing? && Pending(worker.base.state) && pbmName != ""
    case PollStatus(_, _) => worker.Executing? && !Pending(worker.base.state)
    case DecideCancel(_, state) =>
      worker.Cancelling? && (state == Canceling || Terminal(state)) && (worker.base.pbmName == "" ==> state == Canceled)
    case WriteStatus(n) => worker.Writing? && n in s.backups
    case WriteStatusNotFound(n, read) => worker.Writing? && read < |w.history| && n !in w.history[read].backups
    case Release(_, leaseRead) => (worker.Releasing? || worker.Finalizing?) && leaseRead < |w.history|
    case UpdateFinalizers(n, failed) =>
      && worker.Finalizing?
      && n in s.backups
      && s.backups[n].version == worker.version
      && (ReleaseLock in worker.finalizers && !worker.released ==> ReleaseLock in failed)
  }

  /**
   The server's reply to an object being written or marked: an object being deleted goes once its
   finalizers are gone.
   */
  function Put(s: Store, n: string, b: Backup): Store {
    if b.deleting && b.finalizers == [] then s.(backups := s.backups - {n}, revision := s.revision + 1)
    else s.(backups := s.backups[n := b.(version := s.revision)], revision := s.revision + 1)
  }

  /** Where a reconcile goes after its status write came back without an error. */
  function AfterWrite(worker: Worker): Worker
    requires worker.Writing?
  {
    if worker.thenCancel then Cancelling(worker.uid, worker.next)
    else if Terminal(worker.next.state) then Releasing(worker.uid)
    else Idle
  }

  function AcquireResult(w: World, a: Action): (Option<Lease>, AcquireOutcome)
    requires WellFormed(w) && a.Acquire? && Enabled(w, a)
  {
    var s := Now(w);
    var view := w.history[a.leaseRead].lease;
    AcquireEffect(view, s.lease, Holder(a.n, WorkerOf(w, a.n).uid),
                  HolderStale(w.history[a.listRead], HolderOf(view)), s.revision)
  }

  function NextStore(w: World, a: Action): Store
    requires WellFormed(w) && Enabled(w, a)
  {
    var s := Now(w);
    var worker := WorkerOf(w, a.n);
    match a
    case CreateBackup(n, finalizers) =>
      s.(backups := s.backups[n := Backup(s.nextUid, s.revision, Status(New, ""), finalizers, false, false)],
         nextUid := s.nextUid + 1, revision := s.revision + 1)
    case RequestDelete(n) => Put(s, n, s.backups[n].(deleting := true))
    case RequestCancel(n) => Put(s, n, s.backups[n].(cancelAnnotation := true))
    case Acquire(_, _, _) =>
      if Pending(worker.base.state) then s.(lease := AcquireResult(w, a).0, revision := s.revision + 1) else s
    case EnsureFinalizer(n) =>
      if worker.locked then s
      else Put(s, n, s.backups[n].(finalizers := s.backups[n].finalizers + [ReleaseLock]))
    case WriteStatus(n) => Put(s, n, s.backups[n].(status := worker.next))
    case Release(n, leaseRead) =>
      s.(lease := ReleaseEffect(w.history[leaseRead].lease, s.lease, Holder(n, worker.uid)).0,
         revision := s.revision + 1)
    case UpdateFinalizers(n, failed) =>
      Put(s, n, s.backups[n].(finalizers := Kept(worker.finalizers, worker.base.state, failed)))
    case _ => s
  }

  function NextWorker(w: World, a: Action): Worker
    requires WellFormed(w) && Enabled(w, a)
  {
    var s := Now(w);
    var worker := WorkerOf(w, a.n);
    match a
    case CreateBackup(_, _) => worker
    case RequestDelete(_) => worker
    case RequestCancel(_) => worker
    case Begin(n) => Dispatch(s.backups[n])
    case Abort(_) => Idle
    case Fail(_) =>
      if worker.Executing? && Pending(worker.base.state) then Writing(worker.uid, worker.base, Status(Error, ""), false)
      else Writing(worker.uid, worker.base, worker.base.(state := Error), false)
    case Park(_) => Writing(worker.uid, worker.base, worker.base.(state := Waiting), false)
    case Acquire(_, _, _) =>
      if !Pending(worker.base.state) then Ensuring(worker.uid, worker.base, worker.locked)
      else (match AcquireResult(w, a).1
            case Acquired => Ensuring(worker.uid, worker.base, worker.locked)
            case Busy => Writing(worker.uid, worker.base, worker.base.(state := Waiting), false)
            case Failed => Writing(worker.uid, worker.base, worker.base.(state := Error), false))
    case EnsureFinalizer(_) => Executing(worker.uid, worker.base)
    case SendCommand(_, pbmName) => Writing(worker.uid, worker.base, Status(Requested, pbmName), false)
    case PollStatus(_, state) => Writing(worker.uid, worker.base, worker.base.(state := state), false)
    case DecideCancel(_, state) => Writing(worker.uid, worker.base, worker.base.(state := state), false)
    case WriteStatus(_) => AfterWrite(worker)
    case WriteStatusNotFound(_, _) => AfterWrite(worker)
    case Release(_, _) => if worker.Releasing? then Idle else worker.(released := true)
    case UpdateFinalizers(_, _) => Idle
  }

  function Step(w: World, a: Action): (w': World)
    requires WellFormed(w) && Enabled(w, a)
    ensures WellFormed(w')
  {
    World(w.history + [NextStore(w, a)], w.workers[a.n := NextWorker(w, a)])
  }

  /** No backup yet, nothing in flight, and no lease. */
  const INITIAL: World := World([Store(None, map[], 0, 0)], map[])

  /** The actions can be taken one after the other from `w`. */
  predicate Runnable(w: World, actions: seq<Action>)
    requires WellFormed(w)
    decreases |actions|
  {
    actions == [] || (Enabled(w, actions[0]) && Runnable(Step(w, actions[0]), actions[1..]))
  }

  function Run(w: World, actions: seq<Action>): (w': World)
    requires WellFormed(w) && Runnable(w, actions)
    ensures WellFormed(w')
    decreases |actions|
  {
    if actions == [] then w else Run(Step(w, actions[0]), actions[1..])
  }

  /** A cache that has seen the object `uid` was created. */
  predicate HasSeen(s: Store, uid: nat) {
    uid < s.nextUid
  }

  /**
   The three assumptions mutual exclusion rests on. A name is not reused while a reconcile of its
   previous object is in flight. The list checkStale reads has seen the creation of the lease
   holder it is asked about. The copy updateStatus reads, when it answers "not found", has seen the
   creation of the backup it is asked about.
   */
  datatype Assumption = NamesNotReused | ListSeesHolder | GetSeesBackup

  predicate Meets(w: World, a: Action, assumption: Assumption)
    requires WellFormed(w) && Enabled(w, a)
  {
    match assumption
    case NamesNotReused => a.CreateBackup? ==> WorkerOf(w, a.n).Idle?
    case ListSeesHolder =>
      a.Acquire? ==>
        var holder := HolderOf(w.history[a.leaseRead].lease);
        holder.Some? ==> HasSeen(w.history[a.listRead], holder.value.uid)
    case GetSeesBackup => a.WriteStatusNotFound? ==> HasSeen(w.history[a.read], WorkerOf(w, a.n).uid)
  }

  predicate Disciplined(w: World, a: Action)
    requires WellFormed(w) && Enabled(w, a)
  {
    Meets(w, a, NamesNotReused) && Meets(w, a, ListSeesHolder) && Meets(w, a, GetSeesBackup)
  }

  /** Every action of the run keeps to the three assumptions. */
  predicate DisciplinedRun(w: World, actions: seq<Action>)
    requires WellFormed(w) && Runnable(w, actions)
    decreases |actions|
  {
    actions == [] || (Disciplined(w, actions[0]) && DisciplinedRun(Step(w, actions[0]), actions[1..]))
  }

  /** Every action of the run keeps to the two assumptions other than `but`. */
  predicate DisciplinedBut(w: World, actions: seq<Action>, but: Assumption)
    requires WellFormed(w) && Runnable(w, actions)
    decreases |actions|
  {
    actions == []
    || (AllBut(w, actions[0], but) && DisciplinedBut(Step(w, actions[0]), actions[1..], but))
  }

  predicate AllBut(w: World, a: Action, but: Assumption)
    requires WellFormed(w) && Enabled(w, a)
  {
    && (but == NamesNotReused || Meets(w, a, NamesNotReused))
    && (but == ListSeesHolder || Meets(w, a, ListSeesHolder))
    && (but == GetSeesBackup || Meets(w, a, GetSeesBackup))
  }
}
