/**
 The lease the backup controller uses as a lock, and the two client calls that change it:
 AcquireLease (get, decide, create or update) and ReleaseLease (get, decide, delete).

 Both calls decide on a copy of the lease read from a cache, which may be older than the
 object on the API server. The server accepts a write only when the copy's resource version
 is still the current one.
 */
module Leases {
  import opened Options

  /** naming.BackupHolderId: the name and the UID of a backup object. */
  datatype Holder = Holder(name: string, uid: nat)

  datatype Lease = Lease(uid: nat, version: nat, holder: Option<Holder>)

  datatype AcquireOutcome = Acquired | Busy | Failed

  datatype ReleaseOutcome = Released | NotTheHolder

  /** The holder named by a lease that may not exist. */
  function HolderOf(lease: Option<Lease>): Option<Holder> {
    if lease.Some? then lease.value.holder else None
  }

  /** Two optional copies of the lease are the same stored version. */
  predicate SameVersion(view: Option<Lease>, stored: Option<Lease>) {
    view.Some? && stored.Some? && view.value.uid == stored.value.uid && view.value.version == stored.value.version
  }

  /**
   What AcquireLease leaves on the server. `view` is the cached copy it decided on, `stored` is
   the server's lease at the moment of the write, `stale` is the answer of checkStale.
   */
  function AcquireEffect(view: Option<Lease>, stored: Option<Lease>, me: Holder, stale: bool, version: nat)
    : (Option<Lease>, AcquireOutcome)
  {
    match view
    case None =>
      if stored.None? then (Some(Lease(version, version, Some(me))), Acquired) else (stored, Busy)
    case Some(copy) =>
      if copy.holder == Some(me) then (stored, Acquired)
      else if copy.holder.Some? && !stale then (stored, Busy)
      else if stored.None? then (stored, Failed)
      else if !SameVersion(view, stored) then (stored, Busy)
      else (Some(Lease(copy.uid, version, Some(me))), Acquired)
  }

  /** What ReleaseLease leaves on the server. */
  function ReleaseEffect(view: Option<Lease>, stored: Option<Lease>, me: Holder): (Option<Lease>, ReleaseOutcome) {
    match view
    case None => (stored, Released)
    case Some(copy) =>
      if copy.holder.Some? && copy.holder != Some(me) then (stored, NotTheHolder)
      else if SameVersion(view, stored) then (None, Released)
      else (stored, Released)
  }

  /**
   The API server's copy of the one lease of a cluster. `revision` numbers every write, so a
   version is never given out twice.
   */
  class LeaseServer {
    var lease: Option<Lease>
    var revision: nat

    constructor ()
      ensures lease == None && revision == 0
    {
      lease, revision := None, 0;
    }

    /** Create: refused when a lease already exists. */
    method Create(me: Holder) returns (ok: bool)
      modifies this
      ensures ok == old(lease).None?
      ensures lease == if ok then Some(Lease(old(revision), old(revision), Some(me))) else old(lease)
      ensures revision == old(revision) + 1
    {
      ok := lease.None?;
      if ok {
        lease := Some(Lease(revision, revision, Some(me)));
      }
      revision := revision + 1;
    }

    /** Update under optimistic concurrency: a missing object and an old copy are told apart. */
    method Update(copy: Lease, me: Holder) returns (outcome: AcquireOutcome)
      modifies this
      ensures outcome.Acquired? <==> SameVersion(Some(copy), old(lease))
      ensures outcome.Failed? <==> old(lease).None?
      ensures lease == if outcome.Acquired? then Some(Lease(copy.uid, old(revision), Some(me))) else old(lease)
      ensures revision == old(revision) + 1
    {
      if lease.None? {
        outcome := Failed;
      } else if lease.value.uid != copy.uid || lease.value.version != copy.version {
        outcome := Busy;
      } else {
        lease := Some(Lease(copy.uid, revision, Some(me)));
        outcome := Acquired;
      }
      revision := revision + 1;
    }

    /** k8s.AcquireLease together with the way tryAcquireLease reads its errors. */
    method AcquireLease(view: Option<Lease>, me: Holder, stale: bool) returns (outcome: AcquireOutcome)
      modifies this
      ensures (lease, outcome) == AcquireEffect(view, old(lease), me, stale, old(revision))
      ensures revision >= old(revision)
      ensures lease != old(lease) ==> HolderOf(lease) == Some(me) && lease.value.version == old(revision)
      ensures outcome.Acquired? <==>
                || (view.None? && old(lease).None?)
                || (view.Some? && view.value.holder == Some(me))
                || (view.Some? && (view.value.holder.None? || stale) && SameVersion(view, old(lease)))
      ensures outcome.Failed? <==>
                view.Some? && old(lease).None? && view.value.holder != Some(me) && (view.value.holder.None? || stale)
      ensures outcome.Acquired? && HolderOf(view) != Some(me) ==> HolderOf(lease) == Some(me)
    {
      if view.None? {
        var ok := Create(me);
        return if ok then Acquired else Busy;
      }
      var copy := view.value;
      if copy.holder.Some? {
        if copy.holder.value == me {
          return Acquired;
        }
        if !stale {
          return Busy;
        }
      }
      outcome := Update(copy, me);
    }

    /** k8s.ReleaseLease: the delete carries the copy's UID and version as preconditions. */
    method ReleaseLease(view: Option<Lease>, me: Holder) returns (outcome: ReleaseOutcome)
      modifies this
      ensures (lease, outcome) == ReleaseEffect(view, old(lease), me)
      ensures revision >= old(revision)
      ensures lease != old(lease) ==> lease.None? && view.Some? && SameVersion(view, old(lease))
      ensures outcome.NotTheHolder? <==> HolderOf(view).Some? && HolderOf(view) != Some(me)
      ensures outcome.Released? && SameVersion(view, old(lease)) ==> lease.None?
    {
      if view.None? {
        return Released;
      }
      var copy := view.value;
      if copy.holder.Some? && copy.holder.value != me {
        return NotTheHolder;
      }
      if lease.Some? && lease.value.uid == copy.uid && lease.value.version == copy.version {
        lease := None;
      }
      revision := revision + 1;
      return Released;
    }
  }
}
