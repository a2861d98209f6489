/**
 Ordered shutdown of a cluster being paused or deleted: mongos first, then the shards one member
 at a time, then the config servers. A pass of the controller reads pod counts, asks pods whether
 they are primary, changes the wanted sizes and writes some of them to the StatefulSets.
 */
module Shutdown {
  import opened Options

  /** A replica set as a pass sees it: the size its spec wants, its StatefulSet's replicas if there is one, its pods. */
  datatype Replset = Replset(size: nat, replicas: Option<nat>, pods: nat)

  datatype PrimaryReply = Yes | No | AskFails

  /** Whether StatefulSet and pods of a replica set could be read, and what its first pod, in name order, answers. */
  datatype Answer = Answer(readable: bool, ready: bool, primary: PrimaryReply, setPrimaryFails: bool)

  /** What visiting a replica set returns; Panics is the index into an empty pod list. */
  datatype Outcome = Done | WaitingTermination | WaitingFirstPrimary | Failed | Panics

  predicate Waiting(o: Outcome) {
    o == WaitingTermination || o == WaitingFirstPrimary
  }

  /** deleteReplsetPods: the wanted size it leaves, and what it returns. */
  function Visit(rs: Replset, a: Answer): (Replset, Outcome) {
    if !a.readable then (rs, Failed)
    else if rs.replicas.None? then (rs, Done)
    else
      var r := rs.replicas.value;
      if r == 0 then (rs.(size := 0), if rs.pods == 0 then Done else WaitingTermination)
      else if r == 1 || rs.pods == 1 then VisitLast(rs, a)
      else if rs.pods == 0 then (rs.(size := r), Panics)
      else if a.primary == AskFails then (rs.(size := r), Failed)
      else if a.primary == Yes then (rs.(size := 1), WaitingTermination)
      else (rs.(size := r),
            if rs.pods != r then WaitingTermination else if a.setPrimaryFails then Failed else WaitingFirstPrimary)
  }

  function VisitLast(rs: Replset, a: Answer): (Replset, Outcome) {
    if rs.pods != 1 then (rs.(size := 1), WaitingTermination)
    else if a.ready && a.primary == AskFails then (rs.(size := 1), Failed)
    else if a.ready && a.primary == No then (rs.(size := 1), WaitingFirstPrimary)
    else (rs.(size := 0), WaitingTermination)
  }

  /** deleteReplsetPods, branch by branch. */
  method DeleteReplsetPods(rs: Replset, a: Answer) returns (rs': Replset, o: Outcome)
    ensures (rs', o) == Visit(rs, a)
    ensures rs' == rs.(size := rs'.size)
    ensures o == Done <==> a.readable && Gone(rs)
    ensures a.readable && rs.replicas.Some? ==> rs.replicas.value - 1 <= Downscaled(rs').size <= rs.replicas.value
    ensures a.readable && rs.replicas.Some? && rs'.size < rs.replicas.value && rs.pods >= 2 ==> a.primary == Yes
  {
    rs' := rs;
    if !a.readable {
      return rs', Failed;
    }
    if rs.replicas.None? {
      return rs', Done;
    }
    var replicas := rs.replicas.value;
    if replicas == 0 {
      rs' := rs'.(size := 0);
      return rs', if rs.pods == 0 then Done else WaitingTermination;
    }
    if replicas == 1 || rs.pods == 1 {
      rs' := rs'.(size := 1);
      if rs.pods != 1 {
        return rs', WaitingTermination;
      }
      if a.ready {
        if a.primary == AskFails {
          return rs', Failed;
        }
        if a.primary == No {
          return rs', WaitingFirstPrimary;
        }
      }
      rs' := rs'.(size := 0);
      return rs', WaitingTermination;
    }
    rs' := rs'.(size := replicas);
    if rs.pods == 0 {
      return rs', Panics;
    }
    if a.primary == AskFails {
      return rs', Failed;
    }
    if a.primary == No {
      if rs.pods != replicas {
        return rs', WaitingTermination;
      }
      return rs', if a.setPrimaryFails then Failed else WaitingFirstPrimary;
    }
    rs' := rs'.(size := 1);
    return rs', WaitingTermination;
  }

  /** The loop over the shards from the `i`th on: an error other than waiting ends it. */
  function VisitFrom(shards: seq<Replset>, answers: seq<Answer>, i: nat, deleted: bool): (seq<Replset>, Outcome)
    requires i <= |shards| == |answers|
    decreases |shards| - i
  {
    if i == |shards| then (shards, if deleted then Done else WaitingTermination)
    else
      var v := Visit(shards[i], answers[i]);
      var next := shards[i := v.0];
      if v.1 != Done && !Waiting(v.1) then (next, v.1)
      else VisitFrom(next, answers, i + 1, deleted && v.1 == Done)
  }

  function VisitAll(shards: seq<Replset>, answers: seq<Answer>): (seq<Replset>, Outcome)
    requires |shards| == |answers|
  {
    VisitFrom(shards, answers, 0, true)
  }

  /** safeDownscale on one shard: no more than one member fewer than there are now. */
  function Downscaled(rs: Replset): Replset {
    if rs.replicas.Some? && rs.replicas.value - rs.size > 1 then rs.(size := rs.replicas.value - 1) else rs
  }

  function DownscaleAll(shards: seq<Replset>): seq<Replset> {
    seq(|shards|, i requires 0 <= i < |shards| => Downscaled(shards[i]))
  }

  /** A cluster: mongos and the config servers matter only to a sharded one. */
  datatype Cluster = Cluster(sharded: bool, mongosPods: nat, shards: seq<Replset>, cfg: Option<Replset>)

  datatype Answers = Answers(mongosListed: bool, shards: seq<Answer>, cfg: Answer)

  predicate Gated(c: Cluster) {
    c.sharded && c.mongosPods != 0
  }

  /** deletePSMDBPods: the wanted sizes it leaves, and what it returns. */
  function DeletePods(c: Cluster, answers: Answers): (Cluster, Outcome)
    requires |answers.shards| == |c.shards|
  {
    if c.sharded && !answers.mongosListed then (c, Failed)
    else if Gated(c) then (c, WaitingTermination)
    else
      var (shards, o) := VisitAll(c.shards, answers.shards);
      if o != Done then (c.(shards := shards), o)
      else if c.sharded && c.cfg.Some? then
        var (cfg, o') := Visit(c.cfg.value, answers.cfg);
        (c.(shards := shards, cfg := Some(cfg)), o')
      else (c.(shards := shards), Done)
  }

  /** The spec a pass works on, whose sizes it changes in place. */
  class ClusterSpec {
    var sharded: bool
    var mongosPods: nat
    var shards: seq<Replset>
    var cfg: Option<Replset>

    ghost function Contents(): Cluster
      reads this
    {
      Cluster(sharded, mongosPods, shards, cfg)
    }

    /** The loop over the shards: every shard before the current one is settled, the rest untouched. */
    method DeleteShards(answers: seq<Answer>) returns (o: Outcome)
      requires |answers| == |shards|
      modifies this`shards
      ensures shards == VisitAll(old(shards), answers).0 && o == VisitAll(old(shards), answers).1
    {
      var deleted := true;
      for i := 0 to |shards|
        invariant |shards| == |answers|
        invariant VisitFrom(shards, answers, i, deleted) == VisitAll(old(shards), answers)
      {
        var rs, result := DeleteReplsetPods(shards[i], answers[i]);
        shards := shards[i := rs];
        if result != Done {
          deleted := false;
          if Waiting(result) {
            continue;
          }
          return result;
        }
      }
      o := if deleted then Done else WaitingTermination;
    }

    method DeletePsmdbPods(answers: Answers) returns (o: Outcome)
      requires |answers.shards| == |shards|
      modifies this`shards, this`cfg
      ensures (Contents(), o) == DeletePods(old(Contents()), answers)
    {
      if sharded {
        if !answers.mongosListed {
          return Failed;
        }
        if mongosPods != 0 {
          return WaitingTermination;
        }
      }
      o := DeleteShards(answers.shards);
      if o != Done {
        return;
      }
      if sharded && cfg.Some? {
        var rs;
        rs, o := DeleteReplsetPods(cfg.value, answers.cfg);
        cfg := Some(rs);
      }
    }

    /**
     safeDownscale: true if some shard is held back. A StatefulSet that cannot be read ends it with
     an error, the shards before it already held back.
     */
    method SafeDownscale(unreadable: set<nat>) returns (ok: bool, isDownscale: bool)
      modifies this`shards
      ensures ok <==> forall i :: 0 <= i < |old(shards)| ==> i !in unreadable
      ensures ok ==> shards == DownscaleAll(old(shards))
      ensures ok ==>
                (isDownscale <==> exists i :: 0 <= i < |old(shards)| && Downscaled(old(shards)[i]) != old(shards)[i])
      ensures !ok ==> !isDownscale
      ensures !ok ==> exists k :: 0 <= k < |old(shards)| && k in unreadable && DownscaledUpTo(old(shards), shards, k)
    {
      isDownscale := false;
      for i := 0 to |shards|
        invariant |shards| == |old(shards)| && DownscaledUpTo(old(shards), shards, i)
        invariant forall k :: 0 <= k < i ==> k !in unreadable
        invariant isDownscale <==> exists k :: 0 <= k < i && Downscaled(old(shards)[k]) != old(shards)[k]
      {
        var rs := shards[i];
        if i in unreadable {
          return false, false;
        }
        if rs.replicas.None? {
          continue;
        }
        if rs.replicas.value - rs.size > 1 {
          shards := shards[i := rs.(size := rs.replicas.value - 1)];
          isDownscale := true;
          assert Downscaled(old(shards)[i]) != old(shards)[i];
        }
      }
      ok := true;
    }
  }

  /** The first `i` shards are held back, the rest as they were. */
  ghost predicate DownscaledUpTo(was: seq<Replset>, now: seq<Replset>, i: nat) {
    && |now| == |was|
    && (forall k :: 0 <= k < i && k < |was| ==> now[k] == Downscaled(was[k]))
    && (forall k :: i <= k < |was| ==> now[k] == was[k])
  }

  // ---------------------------------------------------------------- one shard

  /** A replica set that no longer runs. */
  predicate Gone(rs: Replset) {
    rs.replicas.None? || (rs.replicas.value == 0 && rs.pods == 0)
  }

  lemma VisitDone(rs: Replset, a: Answer)
    ensures Visit(rs, a).1 == Done <==> a.readable && Gone(rs)
    ensures Visit(rs, a).0 == rs.(size := Visit(rs, a).0.size)
  {
  }

  /**
   A visited shard after safeDownscale wants what it has or one member fewer. Of two or more pods
   one goes only if pod 0 is the primary; the last member goes only if its pod is the primary or
   not ready.
   */
  lemma OneMemberAtATime(rs: Replset, a: Answer)
    requires rs.replicas.Some? && a.readable
    ensures var wanted, r := Downscaled(Visit(rs, a).0).size, rs.replicas.value;
            && r - 1 <= wanted <= r
            && (wanted < r && rs.pods >= 2 ==> a.primary == Yes)
            && (wanted < r && r == 1 ==> rs.pods == 1 && (!a.ready || a.primary == Yes))
            && (wanted < r <==> MemberGoes(rs, a))
  {
  }

  /**
   The last member goes if its one pod is not ready, whatever it answers, or is the primary; one of
   several goes if a single pod is left or pod 0 of at least two is the primary.
   */
  predicate MemberGoes(rs: Replset, a: Answer)
    requires rs.replicas.Some?
  {
    if rs.replicas.value == 0 then false
    else if rs.replicas.value == 1 then rs.pods == 1 && (!a.ready || a.primary == Yes)
    else rs.pods == 1 || (rs.pods >= 2 && a.primary == Yes)
  }

  /** What a visit asks of a set on its own, as the config servers get it: none, the last one, or all as they are. */
  lemma VisitedSize(rs: Replset, a: Answer)
    requires rs.replicas.Some? && a.readable
    ensures var r := rs.replicas.value;
            Visit(rs, a).0.size ==
            if r == 0 || (rs.pods == 1 && (!a.ready || a.primary == Yes)) then 0
            else if r == 1 || rs.pods == 1 || (rs.pods >= 2 && a.primary == Yes) then 1
            else r
  {
  }

  /** A visit waits for the first pod exactly when all pods are there and it answers that it is not primary. */
  lemma VisitWaits(rs: Replset, a: Answer)
    ensures Visit(rs, a).1 == WaitingFirstPrimary <==>
              && a.readable && rs.replicas.Some? && rs.replicas.value > 0 && a.primary == No
              && if rs.replicas.value == 1 || rs.pods == 1 then rs.pods == 1 && a.ready
                 else rs.pods == rs.replicas.value && !a.setPrimaryFails
  {
  }

  /** The pods have caught up with the StatefulSet and the first one is the primary. */
  predicate Cooperative(rs: Replset, a: Answer) {
    rs.replicas.Some? && rs.pods == rs.replicas.value && a.primary == Yes
  }

  /**
   What one shard goes through: pod counts and answers, pass by pass, each pass reading and writing
   its StatefulSet.
   */
  datatype Round = Round(pods: nat, answer: Answer)

  function After(rs: Replset, rounds: seq<Round>): Replset {
    if rounds == [] then rs
    else
      var before := After(rs, rounds[..|rounds| - 1]).(pods := rounds[|rounds| - 1].pods);
      var asked := Downscaled(Visit(before, rounds[|rounds| - 1].answer).0);
      asked.(replicas := if before.replicas.None? then None else Some(asked.size))
  }

  /** How many rounds found the shard cooperative. */
  function Chances(rs: Replset, rounds: seq<Round>): nat {
    if rounds == [] then 0
    else
      var last := rounds[|rounds| - 1];
      var before := After(rs, rounds[..|rounds| - 1]).(pods := last.pods);
      Chances(rs, rounds[..|rounds| - 1]) + if Cooperative(before, last.answer) then 1 else 0
  }

  /**
   Replicas measure the way to shutdown: they never rise, fall by at most one a round, and fall in
   every cooperative round until none is left.
   */
  lemma {:induction false} ReplicasCountDown(rs: Replset, rounds: seq<Round>)
    requires rs.replicas.Some? && forall k :: 0 <= k < |rounds| ==> rounds[k].answer.readable
    ensures var end := After(rs, rounds);
            && end.replicas.Some?
            && rs.replicas.value - |rounds| <= end.replicas.value <= rs.replicas.value
            && (end.replicas.value == 0 || end.replicas.value <= rs.replicas.value - Chances(rs, rounds))
  {
    if rounds == [] {
    } else {
      var n := |rounds| - 1;
      ReplicasCountDown(rs, rounds[..n]);
      OneMemberAtATime(After(rs, rounds[..n]).(pods := rounds[n].pods), rounds[n].answer);
    }
  }

  // ---------------------------------------------------------------- one pass

  /** Every shard is left alone or visited once, as it was; all of them are visited if the loop is done. */
  lemma {:induction false} VisitedFrom(shards: seq<Replset>, answers: seq<Answer>, i: nat, deleted: bool, k: nat)
    requires i <= |shards| == |answers| && k < |shards|
    ensures var r := VisitFrom(shards, answers, i, deleted);
            && |r.0| == |shards|
            && (k < i ==> r.0[k] == shards[k])
            && (k >= i ==> r.0[k] == shards[k] || r.0[k] == Visit(shards[k], answers[k]).0)
            && (k >= i && r.1 == Done ==>
                  r.0[k] == Visit(shards[k], answers[k]).0 && answers[k].readable && Gone(shards[k]))
    decreases |shards| - i
  {
    if i == |shards| {
    } else {
      var v := Visit(shards[i], answers[i]);
      VisitDone(shards[i], answers[i]);
      VisitedFrom(shards[i := v.0], answers, i + 1, deleted && v.1 == Done, k);
      if v.1 != Done {
        DoneMeansDeleted(shards[i := v.0], answers, i + 1);
      }
    }
  }

  lemma {:induction false} DoneMeansDeleted(shards: seq<Replset>, answers: seq<Answer>, i: nat)
    requires i <= |shards| == |answers|
    ensures VisitFrom(shards, answers, i, false).1 != Done
    decreases |shards| - i
  {
    if i == |shards| {
    } else {
      DoneMeansDeleted(shards[i := Visit(shards[i], answers[i]).0], answers, i + 1);
    }
  }

  lemma EachVisited(shards: seq<Replset>, answers: seq<Answer>, i: nat)
    requires |shards| == |answers| && i < |shards|
    ensures var r := VisitAll(shards, answers);
            && |r.0| == |shards|
            && (r.0[i] == shards[i] || r.0[i] == Visit(shards[i], answers[i]).0)
            && (r.1 == Done ==> r.0[i] == Visit(shards[i], answers[i]).0 && answers[i].readable && Gone(shards[i]))
  {
    VisitedFrom(shards, answers, 0, true, i);
  }

  lemma VisitAllLength(shards: seq<Replset>, answers: seq<Answer>)
    requires |shards| == |answers|
    ensures |VisitAll(shards, answers).0| == |shards|
  {
    if shards != [] {
      EachVisited(shards, answers, 0);
    }
  }

  lemma {:induction false} GoneFrom(shards: seq<Replset>, answers: seq<Answer>, i: nat)
    requires i <= |shards| == |answers|
    requires forall k :: i <= k < |shards| ==> answers[k].readable && Gone(shards[k])
    ensures VisitFrom(shards, answers, i, true).1 == Done
    decreases |shards| - i
  {
    if i == |shards| {
    } else {
      VisitDone(shards[i], answers[i]);
      GoneFrom(shards[i := Visit(shards[i], answers[i]).0], answers, i + 1);
    }
  }

  /** All shards are visited to the end exactly when every one of them is read and gone. */
  lemma AllGone(shards: seq<Replset>, answers: seq<Answer>)
    requires |shards| == |answers|
    ensures VisitAll(shards, answers).1 == Done <==>
            forall i :: 0 <= i < |shards| ==> answers[i].readable && Gone(shards[i])
  {
    if VisitAll(shards, answers).1 == Done {
      forall i | 0 <= i < |shards| ensures answers[i].readable && Gone(shards[i]) {
        EachVisited(shards, answers, i);
      }
    } else if forall i :: 0 <= i < |shards| ==> answers[i].readable && Gone(shards[i]) {
      GoneFrom(shards, answers, 0);
    }
  }

  /**
   The order of the sizes, for every cluster and all answers: a shard's size changes only when no
   mongos pod is left, a config server's only when also every shard is gone.
   */
  lemma SizesChangeInOrder(c: Cluster, answers: Answers, i: nat)
    requires |answers.shards| == |c.shards| && i < |c.shards|
    ensures var c' := DeletePods(c, answers).0;
            && |c'.shards| == |c.shards|
            && (c'.shards[i] != c.shards[i] ==> !Gated(c))
            && (c'.cfg != c.cfg ==> !Gated(c) && Gone(c.shards[i]))
  {
    VisitAllLength(c.shards, answers.shards);
    EachVisited(c.shards, answers.shards, i);
  }

  /** deletePSMDBPods succeeds exactly when everything could be read and nothing is left running. */
  lemma SuccessMeansAllGone(c: Cluster, answers: Answers)
    requires |answers.shards| == |c.shards|
    ensures DeletePods(c, answers).1 == Done <==>
              && !Gated(c) && (c.sharded ==> answers.mongosListed)
              && (forall i :: 0 <= i < |c.shards| ==> answers.shards[i].readable && Gone(c.shards[i]))
              && (c.sharded && c.cfg.Some? ==> answers.cfg.readable && Gone(c.cfg.value))
  {
    AllGone(c.shards, answers.shards);
    if c.cfg.Some? {
      VisitDone(c.cfg.value, answers.cfg);
    }
  }

  // ---------------------------------------------------------------- runs

  /** A paused cluster's sizes are read anew each pass; a deleted one's are stored with its finalizers. */
  datatype Mode = Pausing | Deleting

  /**
   A pass: whether it came to the shutdown code at all (a running backup holds a pause back, an
   earlier finalizer a deletion), whether the finalizer update was stored, and which StatefulSets
   it got to write. Between passes pods come and go.
   */
  datatype Event =
    | Pass(answers: Answers, called: bool, stored: bool, written: set<nat>, cfgWritten: bool)
    | Drift(mongosPods: nat, pods: seq<nat>, cfgPods: nat)

  /** Pods appear only up to what the StatefulSet wants. */
  predicate MayHave(rs: Replset, pods: nat) {
    pods <= rs.pods || (rs.replicas.Some? && pods <= rs.replicas.value)
  }

  predicate Enabled(c: Cluster, e: Event) {
    match e
    case Pass(answers, _, _, _, _) => |answers.shards| == |c.shards|
    case Drift(_, pods, cfgPods) =>
      && |pods| == |c.shards|
      && (forall i :: 0 <= i < |pods| ==> MayHave(c.shards[i], pods[i]))
      && (c.cfg.Some? ==> MayHave(c.cfg.value, cfgPods))
  }

  /** The sizes after the shutdown code, before safeDownscale. */
  function Sized(c: Cluster, e: Event): Cluster
    requires e.Pass? && Enabled(c, e)
  {
    if e.called then DeletePods(c, e.answers).0 else c
  }

  /** Whether the pass goes on to write StatefulSets. */
  predicate GoesOn(c: Cluster, mode: Mode, e: Event)
    requires e.Pass? && Enabled(c, e)
  {
    e.called ==>
      var o := DeletePods(c, e.answers).1;
      if mode == Pausing then o == Done || o == WaitingTermination
      else e.stored && o != Panics && o != Done
  }

  /** The spec sizes the next pass will read. */
  predicate Stores(c: Cluster, mode: Mode, e: Event)
    requires e.Pass? && Enabled(c, e)
  {
    mode == Deleting && e.called && e.stored && DeletePods(c, e.answers).1 != Panics
  }

  function Wrote(rs: Replset, wanted: Replset, stores: bool, writes: bool, downscaled: Replset): Replset {
    Replset(if stores then wanted.size else rs.size, if writes then Some(downscaled.size) else rs.replicas, rs.pods)
  }

  function NextShard(c: Cluster, mode: Mode, e: Event, i: nat): Replset
    requires e.Pass? && Enabled(c, e) && i < |c.shards| == |Sized(c, e).shards|
  {
    var wanted := Sized(c, e).shards[i];
    Wrote(c.shards[i], wanted, Stores(c, mode, e), GoesOn(c, mode, e) && i in e.written, Downscaled(wanted))
  }

  function NextCfg(c: Cluster, mode: Mode, e: Event): Option<Replset>
    requires e.Pass? && Enabled(c, e)
  {
    if c.cfg.None? || Sized(c, e).cfg.None? then c.cfg
    else
      var wanted := Sized(c, e).cfg.value;
      Some(Wrote(c.cfg.value, wanted, Stores(c, mode, e), GoesOn(c, mode, e) && c.sharded && e.cfgWritten, wanted))
  }

  function Step(c: Cluster, mode: Mode, e: Event): Cluster
    requires Enabled(c, e)
  {
    if e.Drift? then
      c.(mongosPods := e.mongosPods,
         shards := seq(|c.shards|, i requires 0 <= i < |c.shards| => c.shards[i].(pods := e.pods[i])),
         cfg := if c.cfg.None? then None else Some(c.cfg.value.(pods := e.cfgPods)))
    else
      SizedLength(c, e);
      c.(shards := seq(|c.shards|, i requires 0 <= i < |c.shards| => NextShard(c, mode, e, i)),
         cfg := NextCfg(c, mode, e))
  }

  lemma SizedLength(c: Cluster, e: Event)
    requires e.Pass? && Enabled(c, e)
    ensures |Sized(c, e).shards| == |c.shards|
  {
    VisitAllLength(c.shards, e.answers.shards);
  }

  /** The StatefulSet was told to run fewer members. */
  predicate Lowered(before: Replset, after: Replset) {
    before.replicas.Some? && after.replicas.Some? && after.replicas.value < before.replicas.value
  }

  predicate LoweredCfg(before: Cluster, after: Cluster) {
    before.cfg.Some? && after.cfg.Some? && Lowered(before.cfg.value, after.cfg.value)
  }

  /** What the order of shutdown asks of one step. */
  ghost predicate InOrder(c: Cluster, c': Cluster) {
    && |c'.shards| == |c.shards|
    && (forall i :: 0 <= i < |c.shards| && Lowered(c.shards[i], c'.shards[i]) ==> !Gated(c))
    && (LoweredCfg(c, c') ==> !Gated(c) && forall i :: 0 <= i < |c.shards| ==> Gone(c.shards[i]))
  }

  ghost predicate IsRun(mode: Mode, worlds: seq<Cluster>, events: seq<Event>) {
    && |worlds| == |events| + 1
    && forall k :: 0 <= k < |events| ==>
         && Enabled(worlds[k], events[k])
         && worlds[k + 1] == Step(worlds[k], mode, events[k])
  }

  /** No StatefulSet has more replicas than the spec declares: no ordinary downscale is under way. */
  predicate Within(rs: Replset) {
    rs.replicas.Some? ==> rs.replicas.value <= rs.size
  }

  ghost predicate AllWithin(c: Cluster) {
    && (forall i :: 0 <= i < |c.shards| ==> Within(c.shards[i]))
    && (c.cfg.Some? ==> Within(c.cfg.value))
  }

  // ---------------------------------------------------------------- pausing

  lemma PauseShard(c: Cluster, e: Event, i: nat)
    requires Enabled(c, e) && e.Pass? && i < |c.shards| && Within(c.shards[i])
    ensures |Step(c, Pausing, e).shards| == |c.shards|
    ensures Within(Step(c, Pausing, e).shards[i])
    ensures Lowered(c.shards[i], Step(c, Pausing, e).shards[i]) ==> !Gated(c)
  {
    SizedLength(c, e);
    EachVisited(c.shards, e.answers.shards, i);
    if c.shards[i].replicas.Some? && e.answers.shards[i].readable {
      OneMemberAtATime(c.shards[i], e.answers.shards[i]);
    }
  }

  lemma PauseCfg(c: Cluster, e: Event)
    requires Enabled(c, e) && e.Pass? && c.cfg.Some? && Within(c.cfg.value)
    ensures Step(c, Pausing, e).cfg.Some? && Within(Step(c, Pausing, e).cfg.value)
    ensures LoweredCfg(c, Step(c, Pausing, e)) ==> !Gated(c) && forall i :: 0 <= i < |c.shards| ==> Gone(c.shards[i])
  {
    AllGone(c.shards, e.answers.shards);
    VisitDone(c.cfg.value, e.answers.cfg);
  }

  lemma PauseStep(c: Cluster, e: Event)
    requires Enabled(c, e) && AllWithin(c)
    ensures AllWithin(Step(c, Pausing, e)) && InOrder(c, Step(c, Pausing, e))
  {
    var c' := Step(c, Pausing, e);
    if e.Pass? {
      forall i | 0 <= i < |c.shards|
        ensures Within(c'.shards[i]) && (Lowered(c.shards[i], c'.shards[i]) ==> !Gated(c))
      {
        PauseShard(c, e, i);
      }
      if c.cfg.Some? {
        PauseCfg(c, e);
      }
    }
  }

  lemma {:induction false} PauseInvariant(worlds: seq<Cluster>, events: seq<Event>, k: nat)
    requires IsRun(Pausing, worlds, events) && AllWithin(worlds[0]) && k < |worlds|
    ensures AllWithin(worlds[k])
  {
    if k == 0 {
    } else {
      PauseInvariant(worlds, events, k - 1);
      PauseStep(worlds[k - 1], events[k - 1]);
    }
  }

  /**
   Every pause run from a cluster not being downscaled: no shard is lowered while a mongos pod
   exists, no config server before every shard is gone, whatever pods do in between.
   */
  lemma PauseIsOrdered(worlds: seq<Cluster>, events: seq<Event>, k: nat)
    requires IsRun(Pausing, worlds, events) && AllWithin(worlds[0]) && k < |events|
    ensures InOrder(worlds[k], worlds[k + 1])
  {
    PauseInvariant(worlds, events, k);
    PauseStep(worlds[k], events[k]);
  }

  // ---------------------------------------------------------------- deleting

  /** Shut down, and not wanted back. */
  predicate GoneForGood(rs: Replset) {
    rs.replicas == Some(0) && rs.pods == 0 && rs.size == 0
  }

  ghost predicate DeleteInv(c: Cluster) {
    && (forall i :: 0 <= i < |c.shards| ==> c.shards[i].replicas.Some?)
    && (Gated(c) ==> forall i :: 0 <= i < |c.shards| ==> Within(c.shards[i]))
    && (c.sharded && c.cfg.Some? && !Within(c.cfg.value) ==>
          !Gated(c) && forall i :: 0 <= i < |c.shards| ==> GoneForGood(c.shards[i]))
  }

  /** Mongos pods do not come back once none is left. */
  ghost predicate MongosStaysGone(worlds: seq<Cluster>) {
    forall j, k :: 0 <= j <= k < |worlds| && worlds[j].mongosPods == 0 ==> worlds[k].mongosPods == 0
  }

  lemma DeleteShard(c: Cluster, e: Event, i: nat)
    requires Enabled(c, e) && e.Pass? && i < |c.shards| && c.shards[i].replicas.Some?
    ensures |Step(c, Deleting, e).shards| == |c.shards|
    ensures var rs' := Step(c, Deleting, e).shards[i];
            && rs'.replicas.Some?
            && (Gated(c) && Within(c.shards[i]) ==> Within(rs') && !Lowered(c.shards[i], rs'))
            && (GoneForGood(c.shards[i]) ==> GoneForGood(rs'))
  {
    SizedLength(c, e);
    EachVisited(c.shards, e.answers.shards, i);
  }

  /** A pass that leaves the config servers wanting fewer than they have found every shard gone, and stored that. */
  lemma DeleteCfg(c: Cluster, e: Event, i: nat)
    requires Enabled(c, e) && e.Pass? && c.sharded && c.cfg.Some? && Within(c.cfg.value)
    requires i < |c.shards| && c.shards[i].replicas.Some?
    ensures var c' := Step(c, Deleting, e);
            && c'.cfg.Some? && |c'.shards| == |c.shards|
            && (LoweredCfg(c, c') ==> !Gated(c) && Gone(c.shards[i]))
            && (!Within(c'.cfg.value) ==> !Gated(c) && GoneForGood(c'.shards[i]))
  {
    SizedLength(c, e);
    EachVisited(c.shards, e.answers.shards, i);
    VisitDone(c.cfg.value, e.answers.cfg);
  }

  lemma DeleteStep(c: Cluster, e: Event)
    requires Enabled(c, e) && DeleteInv(c) && c.shards != []
    requires c.mongosPods == 0 ==> Step(c, Deleting, e).mongosPods == 0
    ensures DeleteInv(Step(c, Deleting, e)) && InOrder(c, Step(c, Deleting, e))
  {
    var c' := Step(c, Deleting, e);
    if e.Pass? {
      forall i | 0 <= i < |c.shards|
        ensures c'.shards[i].replicas.Some?
        ensures Gated(c) ==> Within(c'.shards[i]) && !Lowered(c.shards[i], c'.shards[i])
      {
        DeleteShard(c, e, i);
      }
      if c.sharded && c.cfg.Some? {
        DeleteCfgOrder(c, e);
      }
    }
  }

  lemma DeleteCfgOrder(c: Cluster, e: Event)
    requires Enabled(c, e) && e.Pass? && DeleteInv(c) && c.shards != [] && c.sharded && c.cfg.Some?
    ensures var c' := Step(c, Deleting, e);
            && c'.cfg.Some? && |c'.shards| == |c.shards|
            && (LoweredCfg(c, c') ==> !Gated(c) && forall i :: 0 <= i < |c.shards| ==> Gone(c.shards[i]))
            && (!Within(c'.cfg.value) ==> !Gated(c) && forall i :: 0 <= i < |c.shards| ==> GoneForGood(c'.shards[i]))
  {
    var c' := Step(c, Deleting, e);
    SizedLength(c, e);
    assert c'.cfg.Some?;
    forall i | 0 <= i < |c.shards|
      ensures LoweredCfg(c, c') ==> !Gated(c) && Gone(c.shards[i])
      ensures !Within(c'.cfg.value) ==> !Gated(c) && GoneForGood(c'.shards[i])
    {
      if Within(c.cfg.value) {
        DeleteCfg(c, e, i);
      } else {
        assert GoneForGood(c.shards[i]);
        DeleteShard(c, e, i);
      }
    }
    assert 0 < |c.shards|;
  }

  lemma {:induction false} DeleteInvariant(worlds: seq<Cluster>, events: seq<Event>, k: nat)
    requires IsRun(Deleting, worlds, events) && MongosStaysGone(worlds) && k < |worlds|
    requires DeleteInv(worlds[0]) && worlds[0].shards != []
    ensures DeleteInv(worlds[k]) && worlds[k].shards != []
  {
    if k == 0 {
    } else {
      DeleteInvariant(worlds, events, k - 1);
      assert worlds[k] == Step(worlds[k - 1], Deleting, events[k - 1]);
      assert worlds[k - 1].mongosPods == 0 ==> worlds[k].mongosPods == 0;
      DeleteStep(worlds[k - 1], events[k - 1]);
    }
  }

  /**
   Every deletion run from a cluster with all its StatefulSets and no downscale under way, in
   which mongos pods do not come back: the same order.
   */
  lemma DeletionIsOrdered(worlds: seq<Cluster>, events: seq<Event>, k: nat)
    requires IsRun(Deleting, worlds, events) && MongosStaysGone(worlds) && k < |events|
    requires AllWithin(worlds[0]) && worlds[0].shards != []
    requires forall i :: 0 <= i < |worlds[0].shards| ==> worlds[0].shards[i].replicas.Some?
    ensures InOrder(worlds[k], worlds[k + 1])
  {
    DeleteInvariant(worlds, events, k);
    assert worlds[k].mongosPods == 0 ==> worlds[k + 1].mongosPods == 0;
    DeleteStep(worlds[k], events[k]);
  }

  /**
   Where a pass lowers a shard while mongos pods exist: if and only if it writes the shard and the
   spec it read, declared for a pause and stored for a deletion, already wanted fewer members.
   */
  lemma LoweredUnderMongosExactly(c: Cluster, mode: Mode, e: Event, i: nat)
    requires Enabled(c, e) && e.Pass? && Gated(c) && i < |c.shards| && c.shards[i].replicas.Some?
    ensures |Step(c, mode, e).shards| == |c.shards|
    ensures Lowered(c.shards[i], Step(c, mode, e).shards[i]) <==>
              && !Within(c.shards[i]) && i in e.written
              && (e.called ==> if mode == Pausing then e.answers.mongosListed else e.stored)
  {
    SizedLength(c, e);
  }

  /** A replica set whose visit fails: it cannot be read, or a question or a request that matters is not answered. */
  predicate Unanswered(rs: Replset, a: Answer) {
    || !a.readable
    || (&& rs.replicas.Some? && rs.replicas.value > 0
        && if rs.replicas.value == 1 || rs.pods == 1 then rs.pods == 1 && a.ready && a.primary == AskFails
           else rs.pods > 0 && (a.primary == AskFails
                                || (a.primary == No && rs.pods == rs.replicas.value && a.setPrimaryFails)))
  }

  /** A replica set of two or more without a pod to ask. */
  predicate Podless(rs: Replset, a: Answer) {
    a.readable && rs.replicas.Some? && rs.replicas.value > 1 && rs.pods == 0
  }

  predicate Answered(rs: Replset, a: Answer) {
    !Unanswered(rs, a) && !Podless(rs, a)
  }

  /** From the `i`th shard on, the first whose visit does not go through has no pod to ask. */
  ghost predicate PodlessFirst(shards: seq<Replset>, answers: seq<Answer>, i: nat)
    requires |shards| == |answers|
  {
    exists j :: i <= j < |shards| && PodlessAt(shards, answers, i, j)
  }

  ghost predicate PodlessAt(shards: seq<Replset>, answers: seq<Answer>, i: nat, j: nat)
    requires |shards| == |answers| && j < |shards|
  {
    Podless(shards[j], answers[j]) && forall k :: i <= k < j ==> Answered(shards[k], answers[k])
  }

  /** The pass gets as far as the StatefulSets of a cluster that has mongos pods or a shard left. */
  ghost predicate Writes(c: Cluster, mode: Mode, e: Event)
    requires Enabled(c, e) && e.Pass?
  {
    var unlisted := c.sharded && !e.answers.mongosListed;
    e.called ==>
      if mode == Pausing
      then !unlisted && (Gated(c) || forall i :: 0 <= i < |c.shards| ==> Answered(c.shards[i], e.answers.shards[i]))
      else e.stored && (unlisted || Gated(c) || !PodlessFirst(c.shards, e.answers.shards, 0))
  }

  lemma VisitOutcome(rs: Replset, a: Answer)
    ensures Visit(rs, a).1 == Failed <==> Unanswered(rs, a)
    ensures Visit(rs, a).1 == Panics <==> Podless(rs, a)
  {
  }

  /** How the loop over the shards ends, told from the shards and the answers. */
  lemma {:induction false} LoopOutcome(shards: seq<Replset>, answers: seq<Answer>, i: nat, deleted: bool)
    requires i <= |shards| == |answers|
    ensures var o := VisitFrom(shards, answers, i, deleted).1;
            && (o == Failed || o == Panics <==> exists k :: i <= k < |shards| && !Answered(shards[k], answers[k]))
            && (o == Panics <==> PodlessFirst(shards, answers, i))
            && o != WaitingFirstPrimary
    decreases |shards| - i
  {
    if i == |shards| {
    } else {
      var v := Visit(shards[i], answers[i]);
      VisitOutcome(shards[i], answers[i]);
      var next := shards[i := v.0];
      LoopOutcome(next, answers, i + 1, deleted && v.1 == Done);
      assert forall k :: i < k < |shards| ==> next[k] == shards[k];
      PodlessNext(shards, next, answers, i);
    }
  }

  lemma PodlessNext(shards: seq<Replset>, next: seq<Replset>, answers: seq<Answer>, i: nat)
    requires i < |shards| == |answers| == |next| && forall k :: i < k < |shards| ==> next[k] == shards[k]
    ensures PodlessFirst(shards, answers, i) <==>
            Podless(shards[i], answers[i]) || (Answered(shards[i], answers[i]) && PodlessFirst(next, answers, i + 1))
  {
    if Podless(shards[i], answers[i]) {
      assert PodlessAt(shards, answers, i, i);
    } else if Answered(shards[i], answers[i]) && PodlessFirst(next, answers, i + 1) {
      var j :| i + 1 <= j < |next| && PodlessAt(next, answers, i + 1, j);
      assert PodlessAt(shards, answers, i, j);
    } else if PodlessFirst(shards, answers, i) {
      var j :| i <= j < |shards| && PodlessAt(shards, answers, i, j);
      assert PodlessAt(next, answers, i + 1, j);
    }
  }

  lemma WritesExactly(c: Cluster, mode: Mode, e: Event)
    requires Enabled(c, e) && e.Pass?
    requires Gated(c) || (c.sharded && exists i :: 0 <= i < |c.shards| && !Gone(c.shards[i]))
    ensures GoesOn(c, mode, e) <==> Writes(c, mode, e)
  {
    AllGone(c.shards, e.answers.shards);
    LoopOutcome(c.shards, e.answers.shards, 0, true);
  }

  /**
   The pass gets to write a shard under mongos pods, or the config servers ahead of a shard, that
   the spec wants smaller.
   */
  ghost predicate BreaksOrder(c: Cluster, mode: Mode, e: Event)
    requires Enabled(c, e) && e.Pass?
  {
    && Writes(c, mode, e)
    && (|| (Gated(c) && exists i :: 0 <= i < |c.shards| && i in e.written && !Within(c.shards[i]))
        || (&& c.sharded && e.cfgWritten && c.cfg.Some? && !Within(c.cfg.value)
            && (Gated(c) || exists i :: 0 <= i < |c.shards| && !Gone(c.shards[i]))))
  }

  /** A pass, paused or deleting, lowers something out of order if and only if that is the case before it. */
  lemma OrderBrokenExactly(c: Cluster, mode: Mode, e: Event)
    requires Enabled(c, e) && e.Pass?
    ensures !InOrder(c, Step(c, mode, e)) <==> BreaksOrder(c, mode, e)
  {
    var c' := Step(c, mode, e);
    SizedLength(c, e);
    if Gated(c) || (c.sharded && exists i :: 0 <= i < |c.shards| && !Gone(c.shards[i])) {
      WritesExactly(c, mode, e);
    }
    forall i | 0 <= i < |c.shards| && Gated(c)
      ensures Lowered(c.shards[i], c'.shards[i]) <==> GoesOn(c, mode, e) && i in e.written && !Within(c.shards[i])
    {
      if c.shards[i].replicas.Some? {
        LoweredUnderMongosExactly(c, mode, e, i);
      }
    }
    forall i | 0 <= i < |c.shards| && (Gated(c) || !Gone(c.shards[i]))
      ensures LoweredCfg(c, c') <==>
                c.sharded && c.cfg.Some? && !Within(c.cfg.value) && e.cfgWritten && GoesOn(c, mode, e)
    {
      EachVisited(c.shards, e.answers.shards, i);
    }
  }

  /** A pause begun while a shard is being downscaled from five members to three lowers it under a mongos pod. */
  lemma PauseDuringDownscaleBreaksOrder() returns (c: Cluster, e: Event)
    ensures Enabled(c, e) && e.Pass? && e.called && !InOrder(c, Step(c, Pausing, e))
    ensures |Step(c, Pausing, e).shards| == 1 && Step(c, Pausing, e).shards[0].replicas == Some(4)
  {
    c := Cluster(true, 1, [Replset(3, Some(5), 5)], None);
    e := Pass(Answers(true, [Answer(true, true, Yes, false)], Answer(true, true, Yes, false)), true, true, {0}, true);
    LoweredUnderMongosExactly(c, Pausing, e, 0);
  }

  /** A deletion out of order: no mongos pod is listed once, a size is stored, and mongos pods return. */
  lemma MongosReturnBreaksOrder() returns (worlds: seq<Cluster>, events: seq<Event>)
    ensures IsRun(Deleting, worlds, events) && |events| == 3
    ensures AllWithin(worlds[0]) && |worlds[0].shards| == 1 && worlds[0].shards[0].replicas.Some?
    ensures !InOrder(worlds[2], worlds[3])
  {
    var answers := Answers(true, [Answer(true, true, Yes, false)], Answer(true, true, Yes, false));
    var pass := Pass(answers, true, true, {0}, true);
    var c0 := Cluster(true, 0, [Replset(3, Some(3), 3)], Some(Replset(3, Some(3), 3)));
    var c1 := Cluster(true, 0, [Replset(1, Some(2), 3)], Some(Replset(3, Some(3), 3)));
    FirstMemberGoes(c0, answers);
    assert Step(c0, Deleting, pass) == c1;
    var back := Drift(1, [2], 3);
    var c2 := Cluster(true, 1, [Replset(1, Some(2), 2)], Some(Replset(3, Some(3), 3)));
    assert Step(c1, Deleting, back) == c2;
    LoweredUnderMongosExactly(c2, Deleting, pass, 0);
    worlds, events := [c0, c1, c2, Step(c2, Deleting, pass)], [pass, back, pass];
  }

  lemma FirstMemberGoes(c: Cluster, answers: Answers)
    requires !Gated(c) && answers.mongosListed && c.shards == [Replset(3, Some(3), 3)]
              && answers.shards == [Answer(true, true, Yes, false)]
    ensures DeletePods(c, answers).0 == c.(shards := [Replset(1, Some(3), 3)])
    ensures DeletePods(c, answers).1 == WaitingTermination
  {
    var all := VisitAll(c.shards, answers.shards);
    var next := c.shards[0 := Visit(c.shards[0], answers.shards[0]).0];
    assert all == VisitFrom(next, answers.shards, 1, Visit(c.shards[0], answers.shards[0]).1 == Done);
    assert all.0 == [Replset(1, Some(3), 3)] && all.1 == WaitingTermination;
  }

  /**
   A deletion out of order when a shard has no StatefulSet yet: it counts as gone, the smaller
   config server size is stored, and the same pass creates the shard.
   */
  lemma MissingShardBreaksOrder() returns (worlds: seq<Cluster>, events: seq<Event>)
    ensures IsRun(Deleting, worlds, events) && |events| == 3
    ensures AllWithin(worlds[0]) && MongosStaysGone(worlds)
    ensures !InOrder(worlds[2], worlds[3])
  {
    var answers := Answers(true, [Answer(true, true, Yes, false)], Answer(true, true, Yes, false));
    var first, second := Pass(answers, true, true, {0}, false), Pass(answers, true, true, {0}, true);
    var c0 := Cluster(true, 0, [Replset(3, None, 0)], Some(Replset(3, Some(3), 3)));
    var c1 := Cluster(true, 0, [Replset(3, Some(3), 0)], Some(Replset(1, Some(3), 3)));
    MissingCountsAsGone(c0, answers);
    assert Step(c0, Deleting, first) == c1;
    var up := Drift(0, [3], 3);
    var c2 := Cluster(true, 0, [Replset(3, Some(3), 3)], Some(Replset(1, Some(3), 3)));
    assert Step(c1, Deleting, up) == c2;
    FirstMemberGoes(c2, answers);
    OrderBrokenExactly(c2, Deleting, second);
    worlds, events := [c0, c1, c2, Step(c2, Deleting, second)], [first, up, second];
    assert !Gone(c2.shards[0]);
  }

  lemma MissingCountsAsGone(c: Cluster, answers: Answers)
    requires c == Cluster(true, 0, [Replset(3, None, 0)], Some(Replset(3, Some(3), 3)))
    requires answers == Answers(true, [Answer(true, true, Yes, false)], Answer(true, true, Yes, false))
    ensures DeletePods(c, answers).0 == c.(cfg := Some(Replset(1, Some(3), 3)))
    ensures DeletePods(c, answers).1 == WaitingTermination
  {
    var all := VisitAll(c.shards, answers.shards);
    var next := c.shards[0 := Visit(c.shards[0], answers.shards[0]).0];
    assert all == VisitFrom(next, answers.shards, 1, Visit(c.shards[0], answers.shards[0]).1 == Done);
    assert all.0 == c.shards && all.1 == Done;
  }
}
