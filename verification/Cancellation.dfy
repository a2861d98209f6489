/**
 Cancelling a backup: the status a cancellation pass computes from PBM's metadata, its timeout,
 and the clean-up of volume snapshots that an external backup must finish before it may fail.
 Times are seconds.
 */
module Cancellation {
  import opened Options
  import opened BackupProtocol

  datatype PbmStatus = Starting | InProgress | CopyReady | Done | Cancelled | PbmError

  datatype PbmMeta = PbmMeta(status: PbmStatus, startedAt: int, lastTransition: int, heartbeat: int)

  datatype ClusterRead = ClusterFound | ClusterMissing | ClusterError
  datatype MetaRead = MetaFailed | NoMeta | Meta(meta: PbmMeta)
  datatype LockRead = LockHeld | LockFree | LockFailed

  /** Everything a cancellation pass learns from outside. `ready` is false when PBM cannot be reached. */
  datatype Answers = Answers(
    cluster: ClusterRead,
    ready: bool,
    meta: MetaRead,
    backupLock: LockRead,
    now: int,
    startingDeadlineSeconds: Option<int>,
    getFails: set<string>,
    deleteFails: set<string>)

  datatype Record = Record(
    state: BackupState,
    pbmName: string,
    lastTransition: Option<int>,
    snapshots: seq<string>,
    replsets: seq<string>)

  datatype Snapshots = Snapshots(present: set<string>, terminating: set<string>)

  const DEFAULT_STARTING_DEADLINE := 120

  function Deadline(a: Answers): int {
    if a.startingDeadlineSeconds.Some? && a.startingDeadlineSeconds.value > 0 then a.startingDeadlineSeconds.value
    else DEFAULT_STARTING_DEADLINE
  }

  function VolumeSnapshotName(replset: string): string {
    "snapshot-" + replset
  }

  /** The snapshots a backup owns: the recorded ones and the ones derived from its replica sets. */
  function Names(r: Record): set<string> {
    (set s | s in r.snapshots) + (set rs | rs in r.replsets :: VolumeSnapshotName(rs))
  }

  datatype Cleanup = CleanupDone | CleanupPending | CleanupFailed

  /** One look-up or delete call among the names comes back with an error. */
  predicate CleanupBreaks(names: set<string>, s: Snapshots, a: Answers) {
    exists n :: n in names && (n in a.getFails || (n in s.present && n !in s.terminating && n in a.deleteFails))
  }

  function CleanupResult(names: set<string>, s: Snapshots, a: Answers): Cleanup {
    if CleanupBreaks(names, s, a) then CleanupFailed
    else if names * s.present == {} then CleanupDone
    else CleanupPending
  }

  function LaterOf(x: int, y: int): int {
    if x > y then x else y
  }

  /** PBM's last sign of life, as checkCancellationTimeout counts it. */
  function LastProgress(since: int, meta: Option<PbmMeta>): int {
    if meta.None? then since else LaterOf(meta.value.heartbeat, LaterOf(meta.value.lastTransition, since))
  }

  datatype Outcome = Fails | Keeps(record: Record)

  /** The record after statusFromMeta, for a backup that is being cancelled. */
  function StatusFromMeta(r: Record, external: bool, meta: Option<PbmMeta>, s: Snapshots, a: Answers): Outcome
    requires r.state == Canceling
  {
    if meta.None? then Keeps(r)
    else
      var at := Some(meta.value.lastTransition);
      match meta.value.status
      case Cancelled =>
        if !external then Keeps(r.(state := Canceled, lastTransition := at))
        else (match CleanupResult(Names(r), s, a)
              case CleanupFailed => Fails
              case CleanupPending => Keeps(r)
              case CleanupDone => Keeps(r.(state := Canceled, snapshots := [], lastTransition := at)))
      case PbmError => Keeps(r.(state := Error, lastTransition := at))
      case Done => Keeps(r.(state := Ready, lastTransition := at))
      case Starting =>
        if a.now - meta.value.startedAt < Deadline(a) || a.backupLock == LockHeld then Keeps(r)
        else if a.backupLock == LockFailed then Fails
        else Keeps(r.(state := Error, lastTransition := at))
      case InProgress => Keeps(r)
      case CopyReady => Keeps(r)
  }

  /** checkCancellationTimeout. */
  function TimeoutCheck(r: Record, external: bool, meta: Option<PbmMeta>, s: Snapshots, a: Answers): Outcome
    requires r.state == Canceling
  {
    if r.lastTransition.None? then Keeps(r.(lastTransition := Some(a.now)))
    else if a.now - LastProgress(r.lastTransition.value, meta) < Deadline(a) then Keeps(r)
    else if a.backupLock == LockFailed then Fails
    else if a.backupLock == LockHeld then Keeps(r)
    else if !external then Keeps(r.(state := Error, lastTransition := Some(a.now)))
    else
      match CleanupResult(Names(r), s, a)
      case CleanupFailed => Fails
      case CleanupPending => Keeps(r)
      case CleanupDone => Keeps(r.(state := Error, snapshots := [], lastTransition := Some(a.now)))
  }

  function TimeoutApplies(meta: Option<PbmMeta>): bool {
    meta.None? || (meta.value.status != Starting && meta.value.status != Cancelled)
  }

  function MetaOf(a: Answers): Option<PbmMeta> {
    if a.meta.Meta? then Some(a.meta.meta) else None
  }

  /** The record after PBM's metadata and, where it applies, the timeout have been looked at. */
  function Assess(r: Record, external: bool, s: Snapshots, a: Answers): Outcome
    requires r.state == Canceling
  {
    var meta := MetaOf(a);
    match StatusFromMeta(r, external, meta, s, a)
    case Fails => Fails
    case Keeps(assessed) =>
      if assessed.state == Canceling && TimeoutApplies(meta) then TimeoutCheck(assessed, external, meta, s, a)
      else Keeps(assessed)
  }

  /** The record reconcileCancellation stores at the end of one pass over a Canceling backup. */
  function CancelPass(r: Record, external: bool, s: Snapshots, a: Answers): (r': Record)
    requires r.state == Canceling
  {
    if r.pbmName == "" then r.(state := Canceled, lastTransition := Some(a.now))
    else if a.cluster == ClusterMissing then
      if !external then r.(state := Error, lastTransition := Some(a.now))
      else if CleanupResult(Names(r), s, a) != CleanupDone then r
      else r.(state := Error, snapshots := [], lastTransition := Some(a.now))
    else if a.cluster == ClusterError || !a.ready || a.meta == MetaFailed then r
    else
      match Assess(r, external, s, a)
      case Fails => r
      case Keeps(assessed) =>
        if external && assessed.state == Error then
          if CleanupResult(Names(r), s, a) == CleanupDone then assessed.(snapshots := []) else r
        else assessed
  }

  /** The cancellation half of the controller: one backup's record and the snapshots of its namespace. */
  class Canceller {
    const external: bool
    var record: Record
    var snapshots: Snapshots

    constructor (external: bool, record: Record, snapshots: Snapshots)
      ensures this.external == external && this.record == record && this.snapshots == snapshots
    {
      this.external, this.record, this.snapshots := external, record, snapshots;
    }

    /** The calls about one snapshot: look it up and delete it unless it is on its way out. */
    method CleanupOne(name: string, a: Answers) returns (found: Found)
      modifies this`snapshots
      ensures found == FoundOne(name, old(snapshots), a)
      ensures snapshots == if found.Present? then WithTerminating(old(snapshots), name) else old(snapshots)
    {
      if name in a.getFails {
        return Broken;
      }
      if name !in snapshots.present {
        return Absent;
      }
      if name !in snapshots.terminating {
        if name in a.deleteFails {
          return Broken;
        }
        snapshots := snapshots.(terminating := snapshots.terminating + {name});
      }
      assert snapshots.terminating == old(snapshots).terminating + {name};
      return Present;
    }

    /** cleanupCanceledSnapshots: delete what is still there and report whether anything was. */
    method CleanupSnapshots(a: Answers) returns (result: Cleanup)
      modifies this`snapshots
      ensures result == CleanupResult(Names(record), old(snapshots), a)
      ensures snapshots.present == old(snapshots).present
      ensures old(snapshots).terminating <= snapshots.terminating
      ensures snapshots.terminating <= old(snapshots).terminating + Names(record) * snapshots.present
      ensures result == CleanupPending ==> Names(record) * snapshots.present <= snapshots.terminating
    {
      var names := Names(record);
      var todo := names;
      var done := true;
      while todo != {}
        invariant todo <= names && Cleaned(names - todo, old(snapshots), snapshots, done, a)
        decreases |todo|
      {
        var name :| name in todo;
        CleanedNext(names, todo, name, old(snapshots), snapshots, done, a);
        todo := todo - {name};
        var found := CleanupOne(name, a);
        if found.Broken? {
          return CleanupFailed;
        }
        if found.Present? {
          done := false;
        }
      }
      assert names - todo == names;
      return if done then CleanupDone else CleanupPending;
    }

    /** managedBackups.statusFromMeta and snapshotBackups.statusFromMeta. */
    method ReadMeta(meta: Option<PbmMeta>, a: Answers) returns (outcome: Outcome)
      requires record.state == Canceling
      modifies this`snapshots
      ensures outcome == StatusFromMeta(record, external, meta, old(snapshots), a)
      ensures snapshots.present == old(snapshots).present
      ensures meta.None? || meta.value.status != Cancelled ==> snapshots == old(snapshots)
    {
      var status := record;
      if meta.None? {
        return Keeps(status);
      }
      var m := meta.value;
      match m.status {
        case Cancelled =>
          if external {
            var result := CleanupSnapshots(a);
            if result == CleanupFailed {
              return Fails;
            }
            if result == CleanupDone {
              status := status.(state := Canceled, snapshots := []);
            }
          } else {
            status := status.(state := Canceled);
          }
        case PbmError =>
          status := status.(state := Error);
        case Done =>
          status := status.(state := Ready);
        case Starting =>
          var passed := a.now - m.startedAt;
          if passed >= Deadline(a) {
            if a.backupLock == LockFailed {
              return Fails;
            }
            if a.backupLock != LockHeld {
              status := status.(state := Error);
            }
          }
        case InProgress =>
        case CopyReady =>
      }
      if status.state != Canceling {
        status := status.(lastTransition := Some(m.lastTransition));
      }
      return Keeps(status);
    }

    /** checkCancellationTimeout. */
    method CheckTimeout(status: Record, meta: Option<PbmMeta>, a: Answers) returns (outcome: Outcome)
      requires status.state == Canceling && Names(status) == Names(record)
      modifies this`snapshots
      ensures outcome == TimeoutCheck(status, external, meta, old(snapshots), a)
      ensures snapshots.present == old(snapshots).present
      ensures outcome.Keeps? && outcome.record.state == Error && external ==>
                CleanupResult(Names(record), old(snapshots), a) == CleanupDone
    {
      if status.lastTransition.None? {
        return Keeps(status.(lastTransition := Some(a.now)));
      }
      var lastProgress := status.lastTransition.value;
      if meta.Some? {
        var marks := [meta.value.lastTransition, meta.value.heartbeat];
        for i := 0 to 2
          invariant i == 0 ==> lastProgress == status.lastTransition.value
          invariant i == 1 ==>
                      lastProgress == LaterOf(marks[0], status.lastTransition.value)
          invariant i == 2 ==> lastProgress == LastProgress(status.lastTransition.value, meta)
        {
          if marks[i] > lastProgress {
            lastProgress := marks[i];
          }
        }
      }
      if a.now - lastProgress < Deadline(a) {
        return Keeps(status);
      }
      if a.backupLock == LockFailed {
        return Fails;
      }
      if a.backupLock == LockHeld {
        return Keeps(status);
      }
      var next := status;
      if external {
        var result := CleanupSnapshots(a);
        if result == CleanupFailed {
          return Fails;
        }
        if result == CleanupPending {
          return Keeps(status);
        }
        next := next.(snapshots := []);
      }
      return Keeps(next.(state := Error, lastTransition := Some(a.now)));
    }

    /** cancelBackup, with the error handling of reconcileCancellation around it. */
    method CancelBackup(a: Answers)
      requires record.state == Canceling
      modifies this`record, this`snapshots
      ensures record == CancelPass(old(record), external, old(snapshots), a)
      ensures snapshots.present == old(snapshots).present
    {
      if record.pbmName == "" {
        record := record.(state := Canceled, lastTransition := Some(a.now));
        return;
      }
      if a.cluster == ClusterMissing {
        if external {
          var result := CleanupSnapshots(a);
          if result != CleanupDone {
            return;
          }
          record := record.(snapshots := []);
        }
        record := record.(state := Error, lastTransition := Some(a.now));
        return;
      }
      if a.cluster == ClusterError || !a.ready || a.meta == MetaFailed {
        return;
      }
      var meta := if a.meta.Meta? then Some(a.meta.meta) else None;
      var outcome := ReadMeta(meta, a);
      if outcome == Fails {
        return;
      }
      var status := outcome.record;
      var silent := meta.None? || (meta.value.status != Starting && meta.value.status != Cancelled);
      if status.state == Canceling && silent {
        assert snapshots == old(snapshots);
        outcome := CheckTimeout(status, meta, a);
        if outcome == Fails {
          return;
        }
        status := outcome.record;
      }
      if external && status.state == Error {
        ghost var before := snapshots;
        var result := CleanupSnapshots(a);
        CleanupTwice(Names(record), old(snapshots), before, a);
        if result != CleanupDone {
          return;
        }
        status := status.(snapshots := []);
      }
      record := status;
    }
  }

  datatype Found = Broken | Absent | Present

  function FoundOne(name: string, s: Snapshots, a: Answers): Found {
    if name in a.getFails then Broken
    else if name !in s.present then Absent
    else if name !in s.terminating && name in a.deleteFails then Broken
    else Present
  }

  function WithTerminating(s: Snapshots, name: string): Snapshots {
    s.(terminating := s.terminating + {name})
  }

  /** The clean-up after the names of `seen`: everything of theirs that exists is on its way out. */
  ghost predicate Cleaned(seen: set<string>, was: Snapshots, now: Snapshots, done: bool, a: Answers) {
    && now.present == was.present
    && was.terminating <= now.terminating <= was.terminating + seen * was.present
    && seen * was.present <= now.terminating
    && !CleanupBreaks(seen, was, a)
    && (done <==> seen * was.present == {})
  }

  /** One turn of the clean-up's loop. */
  lemma CleanedNext(
    names: set<string>, todo: set<string>, name: string, was: Snapshots, now: Snapshots, done: bool, a: Answers)
    requires todo <= names && name in todo && Cleaned(names - todo, was, now, done, a)
    ensures now.terminating <= was.terminating + names * was.present
    ensures match FoundOne(name, now, a)
            case Broken => CleanupBreaks(names, was, a)
            case Absent => Cleaned(names - (todo - {name}), was, now, done, a)
            case Present => Cleaned(names - (todo - {name}), was, WithTerminating(now, name), false, a)
  {
    var seen := names - todo;
    assert names - (todo - {name}) == seen + {name};
    assert seen * was.present <= names * was.present;
    match FoundOne(name, now, a)
    case Broken => assert name in names && name !in seen;
    case Absent => assert (seen + {name}) * was.present == seen * was.present;
    case Present => assert (seen + {name}) * was.present == seen * was.present + {name};
  }

  /** Cleaning up again gives the same verdict when nothing was deleted in between, or nothing was left. */
  lemma CleanupTwice(names: set<string>, s: Snapshots, s': Snapshots, a: Answers)
    requires s.present == s'.present
    requires s == s' || CleanupResult(names, s, a) == CleanupDone
    ensures CleanupResult(names, s', a) == CleanupResult(names, s, a)
  {
    assert forall n :: n in names && n in s.present ==> n in names * s.present;
  }

  /** The deadline is the configured one if it is positive, two minutes otherwise. */
  lemma DeadlineExactly(a: Answers)
    ensures Deadline(a) > 0
    ensures a.startingDeadlineSeconds.Some? && a.startingDeadlineSeconds.value > 0 ==>
              Deadline(a) == a.startingDeadlineSeconds.value
    ensures a.startingDeadlineSeconds.None? || a.startingDeadlineSeconds.value <= 0 ==> Deadline(a) == 120
  {
  }

  /** The last sign of life is the latest of the three marks. */
  lemma LastProgressIsLatest(since: int, meta: PbmMeta)
    ensures var last := LastProgress(since, Some(meta));
            && last >= since && last >= meta.lastTransition && last >= meta.heartbeat
            && (last == since || last == meta.lastTransition || last == meta.heartbeat)
    ensures LastProgress(since, None) == since
  {
  }

  /** The two ways a pass may give up on a backup that does not answer. */
  predicate TimedOut(r: Record, a: Answers) {
    && a.backupLock == LockFree
    && (match MetaOf(a)
        case None => r.lastTransition.Some? && a.now - r.lastTransition.value >= Deadline(a)
        case Some(meta) =>
          if meta.status == Starting then a.now - meta.startedAt >= Deadline(a)
          else r.lastTransition.Some? && a.now - LastProgress(r.lastTransition.value, Some(meta)) >= Deadline(a))
  }

  /** PBM itself reports a failure, or there is no cluster left to ask. */
  predicate ReportedFailed(a: Answers) {
    || a.cluster == ClusterMissing
    || (a.cluster == ClusterFound && a.ready && a.meta.Meta? && a.meta.meta.status == PbmError)
  }

  /** One pass over a Canceling backup leaves it Canceling or finished. */
  lemma CancelingOrTerminal(r: Record, external: bool, s: Snapshots, a: Answers)
    requires r.state == Canceling
    ensures var r' := CancelPass(r, external, s, a); r'.state == Canceling || Terminal(r'.state)
    ensures CancelPass(r, external, s, a).pbmName == r.pbmName
  {
  }

  /**
   A pass ends in Error exactly when PBM reports the failure or the cluster is gone, or PBM is
   reachable, silent past its deadline and holds no backup lock; and, for an external backup,
   every snapshot it names was looked up and none exists.
   */
  lemma ErrorExactly(r: Record, external: bool, s: Snapshots, a: Answers)
    requires r.state == Canceling
    ensures CancelPass(r, external, s, a).state == Error <==>
      && r.pbmName != ""
      && (ReportedFailed(a) || (a.cluster == ClusterFound && a.ready && a.meta != MetaFailed && TimedOut(r, a)
                                && (a.meta.Meta? ==> a.meta.meta.status != Cancelled && a.meta.meta.status != Done)))
      && (external ==> CleanupResult(Names(r), s, a) == CleanupDone)
  {
  }

  /** PBM can be asked, and reports this. */
  predicate Reports(a: Answers, status: PbmStatus) {
    a.cluster == ClusterFound && a.ready && a.meta.Meta? && a.meta.meta.status == status
  }

  /** A pass ends in Ready exactly when the backup was sent to PBM and PBM reports it done after all. */
  lemma ReadyExactly(r: Record, external: bool, s: Snapshots, a: Answers)
    requires r.state == Canceling
    ensures CancelPass(r, external, s, a).state == Ready <==> r.pbmName != "" && Reports(a, Done)
    ensures CancelPass(r, external, s, a).state == Ready ==>
              CancelPass(r, external, s, a) == r.(state := Ready, lastTransition := Some(a.meta.meta.lastTransition))
  {
  }

  /**
   A pass ends in Canceled exactly when nothing was ever sent to PBM, or PBM reports the backup
   cancelled and, for an external one, none of its snapshots exists any more.
   */
  lemma CanceledExactly(r: Record, external: bool, s: Snapshots, a: Answers)
    requires r.state == Canceling
    ensures CancelPass(r, external, s, a).state == Canceled <==>
              r.pbmName == "" || (Reports(a, Cancelled) && (external ==> CleanupResult(Names(r), s, a) == CleanupDone))
    ensures CancelPass(r, external, s, a).state == Canceled ==>
              CancelPass(r, external, s, a).lastTransition ==
              Some(if r.pbmName == "" then a.now else a.meta.meta.lastTransition)
    ensures CancelPass(r, external, s, a).state == Canceled && r.pbmName != "" && external ==>
              CancelPass(r, external, s, a).snapshots == []
  {
  }

  /** What a failed backup keeps: everything but its state, its time and, if it is external, its snapshots. */
  lemma ErrorRecord(r: Record, external: bool, s: Snapshots, a: Answers)
    requires r.state == Canceling && CancelPass(r, external, s, a).state == Error
    ensures var told := a.cluster == ClusterFound && a.meta.Meta?
                        && (a.meta.meta.status == PbmError || a.meta.meta.status == Starting);
            CancelPass(r, external, s, a) ==
            r.(state := Error, lastTransition := Some(if told then a.meta.meta.lastTransition else a.now),
               snapshots := if external then [] else r.snapshots)
  {
  }

  /** A pass that does not finish the backup leaves its record alone, but for starting a clock not yet started. */
  lemma OtherwiseUntouched(r: Record, external: bool, s: Snapshots, a: Answers)
    requires r.state == Canceling && CancelPass(r, external, s, a).state == Canceling
    ensures CancelPass(r, external, s, a) ==
            if && r.lastTransition.None? && a.cluster == ClusterFound && a.ready && a.meta != MetaFailed
               && (a.meta.Meta? ==> a.meta.meta.status == InProgress || a.meta.meta.status == CopyReady)
            then r.(lastTransition := Some(a.now)) else r
  {
  }

  /** An external backup fails through cancellation only after none of its named snapshots exist. */
  lemma ExternalErrorLeavesNoSnapshots(r: Record, s: Snapshots, a: Answers)
    requires r.state == Canceling && CancelPass(r, true, s, a).state == Error
    ensures forall n :: n in Names(r) ==> n !in s.present
    ensures CancelPass(r, true, s, a).snapshots == []
  {
    ErrorExactly(r, true, s, a);
    assert forall n :: n in Names(r) && n in s.present ==> n in Names(r) * s.present;
  }

  /** A timeout alone never ends a backup whose PBM lock is held or whose deadline has not passed. */
  lemma TimeoutNeedsDeadlineAndNoLock(r: Record, external: bool, s: Snapshots, a: Answers)
    requires r.state == Canceling && CancelPass(r, external, s, a).state == Error && !ReportedFailed(a)
    ensures a.backupLock == LockFree
    ensures a.meta.Meta? && a.meta.meta.status == Starting ==> a.now - a.meta.meta.startedAt >= Deadline(a)
    ensures !(a.meta.Meta? && a.meta.meta.status == Starting) ==>
              r.lastTransition.Some? && a.now - LastProgress(r.lastTransition.value, MetaOf(a)) >= Deadline(a)
  {
    ErrorExactly(r, external, s, a);
  }

  /** reconcileCancellation's first write: the backup becomes Canceling. */
  function AsCanceling(r: Record, a: Answers): Record {
    if r.state == Canceling then r else r.(state := Canceling, lastTransition := Some(a.now))
  }

  /**
   One reconcile of the backup as seen in its stored record. `requested` stands for the annotation
   or the deletion of the object. An unfinished backup to be cancelled is marked and gets a
   cancellation pass, a finished one only has its lock released, any other gets an ordinary pass,
   which may store anything. Either write may be lost.
   */
  ghost predicate CancelStep(r: Record, r': Record, requested: bool, external: bool, s: Snapshots, a: Answers) {
    || r' == r
    || (if !Terminal(r.state) && (requested || r.state == Canceling)
        then r' == AsCanceling(r, a) || r' == CancelPass(AsCanceling(r, a), external, s, a)
        else !Terminal(r.state))
  }

  /** The records of a run, with whatever snapshots exist and whatever PBM answers at each pass. */
  ghost predicate CancelRun(
    records: seq<Record>, requests: seq<bool>, external: bool, views: seq<Snapshots>, answers: seq<Answers>)
  {
    && |records| == |views| + 1 == |answers| + 1 == |requests| + 1
    && forall i :: 0 <= i < |views| ==>
         CancelStep(records[i], records[i + 1], requests[i], external, views[i], answers[i])
  }

  /** Once Canceling, every later state is Canceling or terminal, and a terminal record is final. */
  lemma {:induction false} CancelingIsATrap(
    records: seq<Record>, requests: seq<bool>, external: bool, views: seq<Snapshots>, answers: seq<Answers>,
    i: nat, j: nat)
    requires CancelRun(records, requests, external, views, answers)
    requires i <= j < |records|
    requires records[i].state == Canceling || Terminal(records[i].state)
    ensures records[j].state == Canceling || Terminal(records[j].state)
    ensures Terminal(records[i].state) ==> records[j] == records[i]
    decreases j - i
  {
    if i == j {
    } else {
      CancelingIsATrap(records, requests, external, views, answers, i, j - 1);
      assert CancelStep(records[j - 1], records[j], requests[j - 1], external, views[j - 1], answers[j - 1]);
      if records[j - 1].state == Canceling {
        CancelingOrTerminal(records[j - 1], external, views[j - 1], answers[j - 1]);
      }
    }
  }

  /**
   Over a run: when an external backup that was Canceling turns to Error, none of the snapshots it
   named existed at that pass; and no run of lost or repeated passes gets around it.
   */
  lemma {:induction false} ErrorAfterCleanup(
    records: seq<Record>, requests: seq<bool>, views: seq<Snapshots>, answers: seq<Answers>, i: nat, j: nat)
    requires CancelRun(records, requests, true, views, answers)
    requires i <= j < |records| && records[i].state == Canceling && records[j].state == Error
    ensures exists k :: i <= k < j && records[k].state == Canceling && Names(records[k]) * views[k].present == {}
    decreases j - i
  {
    var p := j - 1;
    assert CancelStep(records[p], records[j], requests[p], true, views[p], answers[p]);
    CancelingIsATrap(records, requests, true, views, answers, i, p);
    if records[p].state == Canceling {
      ExternalErrorLeavesNoSnapshots(records[p], views[p], answers[p]);
      assert Names(records[p]) * views[p].present == {};
    } else {
      ErrorAfterCleanup(records, requests, views, answers, i, p);
    }
  }
}
