/**
 The ordered shutdown gets to its end: from every cluster, paused or deleted, some run of passes
 brings every replica set down to nothing, the shards before the config servers.
 */
module ShutdownProgress {
  import opened Options
  import opened Shutdown

  ghost predicate Leads(mode: Mode, c: Cluster, events: seq<Event>, c': Cluster)
    decreases |events|
  {
    if events == [] then c == c'
    else Enabled(c, events[0]) && Leads(mode, Step(c, mode, events[0]), events[1..], c')
  }

  lemma Onward(mode: Mode, c: Cluster, e: Event, rest: seq<Event>, c': Cluster)
    requires Enabled(c, e) && Leads(mode, Step(c, mode, e), rest, c')
    ensures Leads(mode, c, [e] + rest, c')
  {
    assert ([e] + rest)[1..] == rest;
  }

  // ---------------------------------------------------------------- a calm cluster

  function Members(rs: Replset): nat {
    if rs.replicas.Some? then rs.replicas.value else 0
  }

  /** No mongos pod is left, and every replica set runs as many pods as its StatefulSet asks for. */
  ghost predicate Calm(c: Cluster) {
    && c.mongosPods == 0
    && (forall i :: 0 <= i < |c.shards| ==> c.shards[i].pods == Members(c.shards[i]))
    && (c.cfg.Some? ==> c.cfg.value.pods == Members(c.cfg.value))
  }

  /** Mongos pods go, and pods catch up with their StatefulSets. */
  function CatchUp(c: Cluster): Event {
    Drift(0, seq(|c.shards|, i requires 0 <= i < |c.shards| => Members(c.shards[i])),
          if c.cfg.Some? then Members(c.cfg.value) else 0)
  }

  lemma CaughtUp(c: Cluster, mode: Mode)
    ensures Enabled(c, CatchUp(c)) && Calm(Step(c, mode, CatchUp(c)))
    ensures Left(Step(c, mode, CatchUp(c))) == Left(c)
  {
    SameMembers(c.shards, Step(c, mode, CatchUp(c)).shards);
  }

  function Total(shards: seq<Replset>): nat {
    if shards == [] then 0 else Members(shards[0]) + Total(shards[1..])
  }

  /** How many members are still asked for. */
  function Left(c: Cluster): nat {
    Total(c.shards) + if c.sharded && c.cfg.Some? then Members(c.cfg.value) else 0
  }

  lemma {:induction false} SameMembers(a: seq<Replset>, b: seq<Replset>)
    requires |a| == |b| && forall i :: 0 <= i < |a| ==> Members(a[i]) == Members(b[i])
    ensures Total(a) == Total(b)
  {
    if a == [] {
    } else {
      SameMembers(a[1..], b[1..]);
    }
  }

  lemma {:induction false} FewerMembers(a: seq<Replset>, b: seq<Replset>, k: nat)
    requires |a| == |b| && k < |a| && Members(b[k]) < Members(a[k])
    requires forall i :: 0 <= i < |a| ==> Members(b[i]) <= Members(a[i])
    ensures Total(b) < Total(a)
    decreases |a|
  {
    if k == 0 {
      NoMoreMembers(a[1..], b[1..]);
    } else {
      FewerMembers(a[1..], b[1..], k - 1);
    }
  }

  lemma {:induction false} NoMoreMembers(a: seq<Replset>, b: seq<Replset>)
    requires |a| == |b| && forall i :: 0 <= i < |a| ==> Members(b[i]) <= Members(a[i])
    ensures Total(b) <= Total(a)
  {
    if a == [] {
    } else {
      NoMoreMembers(a[1..], b[1..]);
    }
  }

  // ---------------------------------------------------------------- one pass

  /** The first pod is there, ready, and the primary. */
  const PRIMARY := Answer(true, true, Yes, false)

  function AllPrimary(c: Cluster): Answers {
    Answers(true, seq(|c.shards|, _ => PRIMARY), PRIMARY)
  }

  function Existing(shards: seq<Replset>): set<nat> {
    set i | 0 <= i < |shards| && shards[i].replicas.Some?
  }

  /** A pass whose every call goes through; it writes the shards, or with these gone the config servers. */
  function GoodPass(c: Cluster, cfg: bool): Event {
    Pass(AllPrimary(c), true, true, if cfg then {} else Existing(c.shards), cfg)
  }

  /** With every visit answered, the loop leaves each shard as its own visit does. */
  lemma {:induction false} EveryVisit(shards: seq<Replset>, answers: seq<Answer>, i: nat, deleted: bool, k: nat)
    requires i <= k < |shards| == |answers|
    requires forall j :: i <= j < |shards| ==> Answered(shards[j], answers[j])
    ensures |VisitFrom(shards, answers, i, deleted).0| == |shards|
    ensures VisitFrom(shards, answers, i, deleted).0[k] == Visit(shards[k], answers[k]).0
    decreases |shards| - i
  {
    var v := Visit(shards[i], answers[i]);
    VisitOutcome(shards[i], answers[i]);
    var next := shards[i := v.0];
    if k > i {
      EveryVisit(next, answers, i + 1, deleted && v.1 == Done, k);
    } else {
      VisitedFrom(next, answers, i + 1, deleted && v.1 == Done, k);
    }
  }

  /** A shard whose pods are all there loses one member. */
  lemma ShardGoes(rs: Replset)
    requires rs.replicas.Some? && rs.pods == rs.replicas.value
    ensures Answered(rs, PRIMARY)
    ensures Downscaled(Visit(rs, PRIMARY).0).size == if rs.pods == 0 then 0 else rs.pods - 1
  {
    OneMemberAtATime(rs, PRIMARY);
  }

  /** Some shard is left: every shard loses a member, and the config servers none. */
  lemma ShardsGo(c: Cluster, mode: Mode, k: nat)
    requires Calm(c) && k < |c.shards| && Members(c.shards[k]) > 0
    ensures Enabled(c, GoodPass(c, false))
    ensures var c' := Step(c, mode, GoodPass(c, false));
            && |c'.shards| == |c.shards| && c'.sharded == c.sharded
            && (c'.cfg.Some? <==> c.cfg.Some?) && (c.cfg.Some? ==> c'.cfg.value.replicas == c.cfg.value.replicas)
            && forall i :: 0 <= i < |c.shards| ==>
                 Members(c'.shards[i]) == if Members(c.shards[i]) == 0 then 0 else Members(c.shards[i]) - 1
  {
    var e := GoodPass(c, false);
    ShardsOutcome(c);
    assert GoesOn(c, mode, e);
    forall i | 0 <= i < |c.shards|
      ensures var c' := Step(c, mode, e);
              && |c'.shards| == |c.shards|
              && Members(c'.shards[i]) == if Members(c.shards[i]) == 0 then 0 else Members(c.shards[i]) - 1
    {
      SizedLength(c, e);
      EveryVisit(c.shards, e.answers.shards, 0, true, i);
      if c.shards[i].replicas.Some? {
        ShardGoes(c.shards[i]);
        assert i in e.written;
      }
    }
  }

  lemma ShardsOutcome(c: Cluster)
    requires Calm(c)
    ensures forall i :: 0 <= i < |c.shards| ==> Answered(c.shards[i], PRIMARY)
    ensures var o := VisitAll(c.shards, AllPrimary(c).shards).1;
            if forall i :: 0 <= i < |c.shards| ==> Members(c.shards[i]) == 0 then o == Done else o == WaitingTermination
  {
    forall i | 0 <= i < |c.shards|
      ensures Answered(c.shards[i], PRIMARY) && (Gone(c.shards[i]) <==> Members(c.shards[i]) == 0)
    {
      if c.shards[i].replicas.Some? {
        ShardGoes(c.shards[i]);
      }
    }
    AllGone(c.shards, AllPrimary(c).shards);
    LoopOutcome(c.shards, AllPrimary(c).shards, 0, true);
  }

  /** Every shard is gone: the config servers go down to one member, and then to none. */
  lemma ConfigServersGo(c: Cluster, mode: Mode)
    requires Calm(c) && c.sharded && c.cfg.Some? && Members(c.cfg.value) > 0
    requires forall i :: 0 <= i < |c.shards| ==> Members(c.shards[i]) == 0
    ensures Enabled(c, GoodPass(c, true))
    ensures var c' := Step(c, mode, GoodPass(c, true));
            && c'.sharded && c'.cfg.Some? && |c'.shards| == |c.shards|
            && Members(c'.cfg.value) == (if Members(c.cfg.value) == 1 then 0 else 1)
            && forall i :: 0 <= i < |c.shards| ==> c'.shards[i].replicas == c.shards[i].replicas
  {
    var e := GoodPass(c, true);
    ShardsOutcome(c);
    SizedLength(c, e);
    VisitedSize(c.cfg.value, PRIMARY);
    VisitOutcome(c.cfg.value, PRIMARY);
    VisitWaits(c.cfg.value, PRIMARY);
    VisitDone(c.cfg.value, PRIMARY);
    assert GoesOn(c, mode, e);
  }

  // ---------------------------------------------------------------- the whole way down

  /** Nothing runs any more, and nothing is asked for. */
  ghost predicate Down(c: Cluster) {
    && !Gated(c) && (forall i :: 0 <= i < |c.shards| ==> Gone(c.shards[i]))
    && (c.sharded && c.cfg.Some? ==> Gone(c.cfg.value))
  }

  /** One pass brings a calm cluster that is not down a member further. */
  lemma FewerLeft(c: Cluster, mode: Mode) returns (e: Event)
    requires Calm(c) && !Down(c)
    ensures Enabled(c, e) && Left(Step(c, mode, e)) < Left(c)
  {
    if k :| 0 <= k < |c.shards| && Members(c.shards[k]) > 0 {
      e := GoodPass(c, false);
      ShardsGo(c, mode, k);
      FewerMembers(c.shards, Step(c, mode, e).shards, k);
    } else {
      e := GoodPass(c, true);
      ConfigServersGo(c, mode);
      SameMembers(c.shards, Step(c, mode, e).shards);
    }
  }

  /** From every cluster, in either mode, some run takes everything down, and the shutdown then reports success. */
  lemma {:induction false} CanAlwaysShutDown(c: Cluster, mode: Mode) returns (events: seq<Event>, c': Cluster)
    ensures Leads(mode, c, events, c') && Down(c')
    ensures DeletePods(c', AllPrimary(c')).1 == Done
    decreases Left(c)
  {
    var calm := Step(c, mode, CatchUp(c));
    CaughtUp(c, mode);
    if Down(calm) {
      events, c' := [], calm;
      SuccessMeansAllGone(c', AllPrimary(c'));
    } else {
      var e := FewerLeft(calm, mode);
      events, c' := CanAlwaysShutDown(Step(calm, mode, e), mode);
      Onward(mode, calm, e, events, c');
      events := [e] + events;
    }
    Onward(mode, c, CatchUp(c), events, c');
    events := [CatchUp(c)] + events;
  }
}
