/**
 One smartUpdate call on a replica set: secondaries from the highest ordinal down, one at a
 time, each seen back before the next, then the primary, which is recreated only after a
 step-down. The call's effects are kept as a trace of events.
 */
module ReplsetUpdate {
  import opened Options
  import opened PodOrder
  import opened PodWait

  /** Seen is the end of a wait: the copy of the pod that passed its test. */
  datatype Event = Deleted(o: int) | Seen(o: int, pod: PodView) | Resized(o: int) | SteppedDown

  /** A pod moved in place comes back as a copy, relabelled. */
  datatype ResizeReply = InPlace(copy: PodView) | NotPossible | ResizeError
  datatype PrimaryReply = IsPrimary | IsSecondary | PrimaryUnknown
  datatype StepDownReply = Accepted | NoCaughtUpSecondary(forced: bool) | Refused

  /** The pod as listed, and how the calls about it come back. */
  datatype PodReplies = PodReplies(
    pod: PodView, primary: PrimaryReply, resize: ResizeReply, deletes: bool, polls: seq<Poll>)

  type Replies = map<int, PodReplies>

  const NO_POD := PodView(0, false, false, [])

  function Of(replies: Replies, o: int): PodReplies {
    if o in replies then replies[o] else PodReplies(NO_POD, PrimaryUnknown, ResizeError, false, [])
  }

  // ---------------------------------------------------------------- what is out

  function OutAfter(before: set<int>, e: Event): set<int> {
    match e
    case Deleted(o) => before + {o}
    case Seen(o, _) => before - {o}
    case Resized(_) => before
    case SteppedDown => before
  }

  /** The pods deleted and not yet seen back. */
  function Out(trace: seq<Event>): set<int>
    decreases |trace|
  {
    if trace == [] then {} else OutAfter(Out(trace[..|trace| - 1]), trace[|trace| - 1])
  }

  /** At every point of the trace at most one pod is out. */
  ghost predicate OneOut(trace: seq<Event>) {
    forall k :: 0 <= k <= |trace| ==> |Out(trace[..k])| <= 1
  }

  lemma OutAppend(trace: seq<Event>, e: Event)
    ensures Out(trace + [e]) == OutAfter(Out(trace), e)
  {
    assert (trace + [e])[..|trace|] == trace;
  }

  /** With nothing out after the first part, the second part decides. */
  lemma {:induction false} OutConcat(a: seq<Event>, b: seq<Event>)
    requires Out(a) == {}
    ensures Out(a + b) == Out(b)
  {
    if b == [] {
      assert a + b == a;
    } else {
      var init, last := b[..|b| - 1], b[|b| - 1];
      OutConcat(a, init);
      assert a + b == (a + init) + [last] && b == init + [last];
      OutAppend(a + init, last);
      OutAppend(init, last);
    }
  }

  lemma OneOutConcat(a: seq<Event>, b: seq<Event>)
    requires OneOut(a) && Out(a) == {} && OneOut(b)
    ensures OneOut(a + b)
  {
    forall k | 0 <= k <= |a + b| ensures |Out((a + b)[..k])| <= 1 {
      if k <= |a| {
        assert (a + b)[..k] == a[..k];
      } else {
        assert (a + b)[..k] == a + b[..k - |a|];
        OutConcat(a, b[..k - |a|]);
      }
    }
  }

  /** A trace about one pod never has two out. */
  lemma {:induction false} OnePodOut(trace: seq<Event>, o: int)
    requires forall e :: e in trace ==> e.SteppedDown? || e.o == o
    ensures Out(trace) <= {o} && OneOut(trace)
  {
    if trace == [] {
      assert trace[..0] == [];
    } else {
      var init, last := trace[..|trace| - 1], trace[|trace| - 1];
      assert trace == init + [last] && last in trace;
      OnePodOut(init, o);
      OutAppend(init, last);
      AtMostOne(Out(trace), o);
      forall k | 0 <= k <= |trace| ensures |Out(trace[..k])| <= 1 {
        if k <= |init| {
          assert trace[..k] == init[..k];
        } else {
          assert trace[..k] == trace;
        }
      }
    }
  }

  lemma AtMostOne(s: set<int>, o: int)
    requires s <= {o}
    ensures |s| <= 1
  {
    if s != {} {
      assert s == {o};
    }
  }

  // ---------------------------------------------------------------- one pod

  function Awaited(o: int, copy: PodView, polls: seq<Poll>): (bool, seq<Event>) {
    var (ok, seen) := Waited(copy, polls);
    (ok, if ok then [Seen(o, seen)] else [])
  }

  /** recreateNWait: whether it succeeds, and what it did. */
  function Recreated(o: int, r: PodReplies): (bool, seq<Event>) {
    if r.pod.updated then Awaited(o, r.pod, r.polls)
    else if !r.deletes then (false, [])
    else var (ok, events) := Awaited(o, r.pod, r.polls); (ok, [Deleted(o)] + events)
  }

  /** applyNWait: resize in place when that is possible, recreate otherwise. */
  function Applied(o: int, r: PodReplies): (bool, seq<Event>) {
    if r.pod.updated || r.resize.NotPossible? then Recreated(o, r)
    else if r.resize.ResizeError? then (false, [])
    else var (ok, events) := Awaited(o, r.resize.copy.(updated := true), r.polls); (ok, [Resized(o)] + events)
  }

  method RecreateAndWait(o: int, r: PodReplies, trace: seq<Event>) returns (ok: bool, trace': seq<Event>)
    ensures ok == Recreated(o, r).0 && trace' == trace + Recreated(o, r).1
    ensures ok && !r.pod.updated ==>
              exists p :: Got(Some(p)) in r.polls && Up(p) && trace' == trace + [Deleted(o)] + [Seen(o, p)]
  {
    trace' := trace;
    if !r.pod.updated {
      if !r.deletes {
        return false, trace';
      }
      trace' := trace' + [Deleted(o)];
    }
    var seen;
    ok, seen := WaitPodRestart(r.pod, r.polls);
    if ok {
      trace' := trace' + [Seen(o, seen)];
    }
  }

  method ApplyAndWait(o: int, r: PodReplies, trace: seq<Event>) returns (ok: bool, trace': seq<Event>)
    ensures ok == Applied(o, r).0 && trace' == trace + Applied(o, r).1
  {
    if !r.pod.updated {
      if r.resize.ResizeError? {
        return false, trace;
      }
      if r.resize.InPlace? {
        trace' := trace + [Resized(o)];
        var seen;
        ok, seen := WaitPodRestart(r.resize.copy.(updated := true), r.polls);
        if ok {
          trace' := trace' + [Seen(o, seen)];
        }
        return;
      }
    }
    ok, trace' := RecreateAndWait(o, r, trace);
  }

  /** The trace shows the pod at the update revision, running and ready. */
  ghost predicate ShownReady(o: int, trace: seq<Event>) {
    exists p :: Seen(o, p) in trace && Up(p)
  }

  /** The end of a wait. */
  lemma AwaitedMeaning(o: int, copy: PodView, polls: seq<Poll>)
    ensures var (ok, events) := Awaited(o, copy, polls);
            if ok then
              var seen := Waited(copy, polls).1;
              events == [Seen(o, seen)] && Up(seen) && (!copy.updated ==> Got(Some(seen)) in polls)
            else events == []
  {
    WaitedMeaning(copy, polls);
  }

  /** Events about one pod, ending with it seen ready if the calls succeeded. */
  ghost predicate OnePod(events: seq<Event>, o: int, ok: bool) {
    && (forall e :: e in events ==> e.SteppedDown? || e.o == o)
    && (ok ==> events != [] && events[|events| - 1].Seen? && Up(events[|events| - 1].pod))
  }

  lemma OnePodMeaning(events: seq<Event>, o: int, ok: bool)
    requires OnePod(events, o, ok)
    ensures OneOut(events) && (ok ==> Out(events) == {} && ShownReady(o, events))
  {
    OnePodOut(events, o);
    if ok {
      SeenLast(events, o);
      assert events[|events| - 1] in events;
    }
  }

  /** Deletions come before the pod is seen, and a pod seen after its deletion was read since. */
  lemma AppliedShape(o: int, r: PodReplies)
    ensures var (ok, events) := Applied(o, r);
            && OnePod(events, o, ok) && SteppedDown !in events
            && (forall i :: 0 <= i < |events| && events[i].Deleted? ==> i == 0)
            && (Deleted(o) in events ==> !r.pod.updated && r.resize.NotPossible?)
            && (forall p :: Seen(o, p) in events ==> Up(p))
            && (forall p :: Deleted(o) in events && Seen(o, p) in events ==> Got(Some(p)) in r.polls)
  {
    AwaitedMeaning(o, r.pod, r.polls);
    if r.resize.InPlace? {
      AwaitedMeaning(o, r.resize.copy.(updated := true), r.polls);
    }
  }

  lemma AppliedMeaning(o: int, r: PodReplies)
    ensures var (ok, events) := Applied(o, r);
            && (forall e :: e in events ==> !e.SteppedDown? && e.o == o)
            && OneOut(events) && (ok ==> Out(events) == {} && ShownReady(o, events))
            && (forall i :: 0 <= i < |events| && events[i].Deleted? ==> i == 0)
  {
    AppliedShape(o, r);
    OnePodMeaning(Applied(o, r).1, o, Applied(o, r).0);
  }

  /** A trace about one pod that ends with it seen has nothing out. */
  lemma SeenLast(events: seq<Event>, o: int)
    requires events != [] && events[|events| - 1].Seen? && forall e :: e in events ==> e.SteppedDown? || e.o == o
    ensures Out(events) == {}
  {
    var init, last := events[..|events| - 1], events[|events| - 1];
    assert events == init + [last] && last in events;
    assert forall e :: e in init ==> e in events;
    OnePodOut(init, o);
    OutAppend(init, last);
  }

  // ---------------------------------------------------------------- secondaries

  /** The first loop: every pod that does not answer as primary, in list order. */
  function Secondaries(list: seq<int>, replies: Replies): (bool, seq<Event>) {
    if list == [] then (true, [])
    else
      var o, r := list[0], Of(replies, list[0]);
      match r.primary
      case PrimaryUnknown => (false, [])
      case IsPrimary => Secondaries(list[1..], replies)
      case IsSecondary =>
        var (ok, events) := Applied(o, r);
        if !ok then (false, events)
        else var (rest, more) := Secondaries(list[1..], replies); (rest, events + more)
  }

  /** The last pod of the list that answered as primary. */
  function Tracked(list: seq<int>, replies: Replies): Option<int> {
    if list == [] then None
    else if Of(replies, list[|list| - 1]).primary == IsPrimary then Some(list[|list| - 1])
    else Tracked(list[..|list| - 1], replies)
  }

  method UpdateSecondaries(list: seq<int>, replies: Replies) returns (ok: bool, trace: seq<Event>, primary: Option<int>)
    ensures ok == Secondaries(list, replies).0 && trace == Secondaries(list, replies).1
    ensures ok ==> primary == Tracked(list, replies)
  {
    trace, primary := [], None;
    assert list[0..] == list;
    for i := 0 to |list|
      invariant Secondaries(list, replies).0 == Secondaries(list[i..], replies).0
      invariant Secondaries(list, replies).1 == trace + Secondaries(list[i..], replies).1
      invariant primary == Tracked(list[..i], replies)
    {
      var o := list[i];
      var r := Of(replies, o);
      NextMember(list, i, replies, trace);
      if r.primary == PrimaryUnknown {
        return false, trace, primary;
      }
      if r.primary == IsPrimary {
        primary := Some(o);
        continue;
      }
      ok, trace := ApplyAndWait(o, r, trace);
      if !ok {
        return;
      }
    }
    assert list[|list|..] == [] && list[..|list|] == list;
    ok := true;
  }

  /** One turn of the loop. */
  lemma NextMember(list: seq<int>, i: nat, replies: Replies, trace: seq<Event>)
    requires i < |list|
    ensures Tracked(list[..i + 1], replies) ==
            if Of(replies, list[i]).primary == IsPrimary then Some(list[i]) else Tracked(list[..i], replies)
    ensures var r := Of(replies, list[i]);
            var here, next := Secondaries(list[i..], replies), Secondaries(list[i + 1..], replies);
            match r.primary
            case PrimaryUnknown => !here.0 && trace + here.1 == trace
            case IsPrimary => here == next
            case IsSecondary =>
              if Applied(list[i], r).0 then here.0 == next.0 && trace + here.1 == trace + Applied(list[i], r).1 + next.1
              else !here.0 && here.1 == Applied(list[i], r).1
  {
    assert list[i..][0] == list[i] && list[i..][1..] == list[i + 1..];
    assert list[..i + 1][..i] == list[..i];
  }

  predicate StrictlyDescending(list: seq<int>) {
    forall i, j :: 0 <= i < j < |list| ==> list[i] > list[j]
  }

  /** Pods are deleted from the highest ordinal down. */
  predicate DescendingDeletes(trace: seq<Event>) {
    forall i, j :: 0 <= i < j < |trace| && trace[i].Deleted? && trace[j].Deleted? ==> trace[i].o > trace[j].o
  }

  /** The trace speaks of listed pods that answered as secondaries. */
  predicate OnlySecondaries(trace: seq<Event>, list: seq<int>, replies: Replies) {
    forall e :: e in trace ==> !e.SteppedDown? && e.o in list && Of(replies, e.o).primary == IsSecondary
  }

  /** The calls about a secondary come back well: it comes up as it is, resized in place, or deleted. */
  ghost predicate MemberCalls(r: PodReplies) {
    if r.pod.updated then ComesUp(r.pod, r.polls)
    else match r.resize
         case InPlace(copy) => ComesUp(copy.(updated := true), r.polls)
         case NotPossible => r.deletes && ComesUp(r.pod, r.polls)
         case ResizeError => false
  }

  lemma AppliedExactly(o: int, r: PodReplies)
    ensures Applied(o, r).0 <==> MemberCalls(r)
    ensures Resized(o) in Applied(o, r).1 <==> !r.pod.updated && r.resize.InPlace?
    ensures Deleted(o) in Applied(o, r).1 <==> !r.pod.updated && r.resize.NotPossible? && r.deletes
  {
    WaitedExactly(r.pod, r.polls);
    AwaitedMeaning(o, r.pod, r.polls);
    if r.resize.InPlace? {
      WaitedExactly(r.resize.copy.(updated := true), r.polls);
      AwaitedMeaning(o, r.resize.copy.(updated := true), r.polls);
    }
  }

  /** The pod says what it is, and its calls succeed if it is a secondary. */
  ghost predicate MemberOk(o: int, replies: Replies) {
    && Of(replies, o).primary != PrimaryUnknown
    && (Of(replies, o).primary == IsSecondary ==> MemberCalls(Of(replies, o)))
  }

  lemma {:induction false} SecondariesMeaning(list: seq<int>, replies: Replies)
    requires StrictlyDescending(list)
    ensures var (ok, trace) := Secondaries(list, replies);
            && OneOut(trace) && (ok ==> Out(trace) == {})
            && DescendingDeletes(trace) && OnlySecondaries(trace, list, replies)
            && (ok ==> AllShown(list, replies, trace))
  {
    if list == [] {
      assert OneOut([]);
    } else {
      var o, rest := list[0], list[1..];
      AppliedMeaning(o, Of(replies, o));
      SecondariesMeaning(rest, replies);
      assert forall x :: x in list <==> x == o || x in rest;
      if Of(replies, o).primary == IsSecondary && Applied(o, Of(replies, o)).0 {
        SecondariesStep(o, rest, replies);
      }
    }
  }

  /** Every secondary of the list was seen ready. */
  ghost predicate AllShown(list: seq<int>, replies: Replies, trace: seq<Event>) {
    forall o :: o in list && Of(replies, o).primary == IsSecondary ==> ShownReady(o, trace)
  }

  /** One secondary's events, and those of the pods below it. */
  lemma SecondariesStep(o: int, rest: seq<int>, replies: Replies)
    requires StrictlyDescending([o] + rest) && Of(replies, o).primary == IsSecondary && Applied(o, Of(replies, o)).0
    requires OneOut(Secondaries(rest, replies).1) && DescendingDeletes(Secondaries(rest, replies).1)
    requires OnlySecondaries(Secondaries(rest, replies).1, rest, replies)
    requires Secondaries(rest, replies).0 ==>
              && Out(Secondaries(rest, replies).1) == {}
              && AllShown(rest, replies, Secondaries(rest, replies).1)
    ensures var trace := Applied(o, Of(replies, o)).1 + Secondaries(rest, replies).1;
            && OneOut(trace) && (Secondaries(rest, replies).0 ==> Out(trace) == {})
            && DescendingDeletes(trace) && OnlySecondaries(trace, [o] + rest, replies)
            && (Secondaries(rest, replies).0 ==> AllShown([o] + rest, replies, trace))
  {
    var events, more := Applied(o, Of(replies, o)).1, Secondaries(rest, replies).1;
    AppliedMeaning(o, Of(replies, o));
    OneOutConcat(events, more);
    OutConcat(events, more);
    DeletesJoin(o, rest, events, more, replies);
    if Secondaries(rest, replies).0 {
      ShownJoin(o, rest, events, more, replies);
    }
  }

  lemma DeletesJoin(o: int, rest: seq<int>, events: seq<Event>, more: seq<Event>, replies: Replies)
    requires StrictlyDescending([o] + rest) && Of(replies, o).primary == IsSecondary
    requires forall e :: e in events ==> !e.SteppedDown? && e.o == o
    requires forall i :: 0 <= i < |events| && events[i].Deleted? ==> i == 0
    requires DescendingDeletes(more) && OnlySecondaries(more, rest, replies)
    ensures DescendingDeletes(events + more) && OnlySecondaries(events + more, [o] + rest, replies)
  {
    var trace := events + more;
    forall x | x in rest ensures x < o {
      var k :| 0 <= k < |rest| && rest[k] == x;
      assert ([o] + rest)[0] == o && ([o] + rest)[k + 1] == x;
    }
    forall i, j | 0 <= i < j < |trace| && trace[i].Deleted? && trace[j].Deleted? ensures trace[i].o > trace[j].o {
      if i < |events| {
        assert events[i] in events;
      }
      if j >= |events| {
        assert more[j - |events|] in more;
      }
    }
  }

  lemma ShownJoin(o: int, rest: seq<int>, events: seq<Event>, more: seq<Event>, replies: Replies)
    requires ShownReady(o, events) && AllShown(rest, replies, more)
    ensures AllShown([o] + rest, replies, events + more)
  {
    forall x | x in [o] + rest && Of(replies, x).primary == IsSecondary ensures ShownReady(x, events + more) {
      if x == o {
        var p :| Seen(o, p) in events && Up(p);
        assert Seen(o, p) in events + more;
      } else {
        assert x in rest && ShownReady(x, more);
        var p :| Seen(x, p) in more && Up(p);
        assert Seen(x, p) in events + more;
      }
    }
  }

  lemma {:induction false} SecondariesExactly(list: seq<int>, replies: Replies)
    ensures Secondaries(list, replies).0 <==> forall o :: o in list ==> MemberOk(o, replies)
  {
    if list == [] {
    } else {
      SecondariesExactly(list[1..], replies);
      AppliedExactly(list[0], Of(replies, list[0]));
      assert forall x :: x in list <==> x == list[0] || x in list[1..];
      assert list[0] in list;
    }
  }

  lemma {:induction false} TrackedIsPrimary(list: seq<int>, replies: Replies)
    ensures var t := Tracked(list, replies);
            if t.Some? then t.value in list && Of(replies, t.value).primary == IsPrimary
            else forall o :: o in list ==> Of(replies, o).primary != IsPrimary
  {
    if list == [] {
    } else {
      TrackedIsPrimary(list[..|list| - 1], replies);
      assert list == list[..|list| - 1] + [list[|list| - 1]];
    }
  }

  /** Of the pods that answered as primary, the one with the lowest ordinal, which is asked last. */
  ghost predicate LastPrimary(items: seq<int>, replies: Replies, p: int) {
    && p in items && Of(replies, p).primary == IsPrimary
    && forall q :: q in items && Of(replies, q).primary == IsPrimary ==> p <= q
  }

  /** The primary the call goes on with is the last one to have answered as such. */
  lemma {:induction false} TrackedExactly(list: seq<int>, replies: Replies, p: int)
    requires StrictlyDescending(list)
    ensures Tracked(list, replies) == Some(p) <==> LastPrimary(list, replies, p)
  {
    if list == [] {
    } else {
      var init, last := list[..|list| - 1], list[|list| - 1];
      LowestLast(list, init, last);
      TrackedExactly(init, replies, p);
      NextPrimary(list, init, last, replies, p);
    }
  }

  lemma LowestLast(list: seq<int>, init: seq<int>, last: int)
    requires StrictlyDescending(list) && list == init + [last]
    ensures StrictlyDescending(init) && forall q :: q in init ==> last < q
  {
    forall i, j | 0 <= i < j < |init| ensures init[i] > init[j] {
      assert list[i] == init[i] && list[j] == init[j];
    }
    forall q | q in init ensures last < q {
      var i :| 0 <= i < |init| && init[i] == q;
      assert list[i] == q && list[|init|] == last;
    }
  }

  lemma NextPrimary(list: seq<int>, init: seq<int>, last: int, replies: Replies, p: int)
    requires list == init + [last] && forall q :: q in init ==> last < q
    ensures LastPrimary(list, replies, p) <==>
            if Of(replies, last).primary == IsPrimary then p == last else LastPrimary(init, replies, p)
  {
    assert forall q :: q in list <==> q in init || q == last;
  }

  // ---------------------------------------------------------------- the primary

  /** cl.StepDown, and its forced repetition when no secondary has caught up. */
  predicate StepsDown(reply: StepDownReply) {
    reply == Accepted || (reply.NoCaughtUpSecondary? && reply.forced)
  }

  /**
   The second half of smartUpdate: a primary that is current, or can be resized in place, is left
   running; any other is stepped down and recreated.
   */
  function Primary(p: int, r: PodReplies, stepDown: StepDownReply): (bool, seq<Event>) {
    if r.pod.updated then Awaited(p, r.pod, r.polls)
    else if r.resize.ResizeError? then (false, [])
    else if r.resize.InPlace? then
      var (ok, events) := Awaited(p, r.resize.copy.(updated := true), r.polls); (ok, [Resized(p)] + events)
    else if !StepsDown(stepDown) then (false, [])
    else var (ok, events) := Recreated(p, r); (ok, [SteppedDown] + events)
  }

  method UpdatePrimary(p: int, r: PodReplies, stepDown: StepDownReply, trace: seq<Event>)
    returns (ok: bool, trace': seq<Event>)
    ensures ok == Primary(p, r, stepDown).0 && trace' == trace + Primary(p, r, stepDown).1
  {
    trace' := trace;
    var resized, copy := r.pod.updated, r.pod;
    if !resized {
      if r.resize.ResizeError? {
        return false, trace';
      }
      if r.resize.InPlace? {
        resized, copy := true, r.resize.copy.(updated := true);
        trace' := trace' + [Resized(p)];
      }
    }
    if resized {
      var seen;
      ok, seen := WaitPodRestart(copy, r.polls);
      if ok {
        trace' := trace' + [Seen(p, seen)];
      }
      return;
    }
    if !StepsDown(stepDown) {
      return false, trace';
    }
    trace' := trace' + [SteppedDown];
    ok, trace' := RecreateAndWait(p, r, trace');
  }

  /** The primary is deleted only right behind a step-down, and not at all if it is current or can be resized. */
  lemma PrimaryShape(p: int, r: PodReplies, stepDown: StepDownReply)
    ensures var (ok, events) := Primary(p, r, stepDown);
            && OnePod(events, p, ok)
            && (forall i :: 0 <= i < |events| && events[i] == Deleted(p) ==> i == 1 && events[0] == SteppedDown)
            && (Deleted(p) in events ==> !r.pod.updated && r.resize.NotPossible?)
            && (forall q :: Seen(p, q) in events ==> Up(q))
            && (forall q :: Deleted(p) in events && Seen(p, q) in events ==> Got(Some(q)) in r.polls)
  {
    AwaitedMeaning(p, r.pod, r.polls);
    if r.resize.InPlace? {
      AwaitedMeaning(p, r.resize.copy.(updated := true), r.polls);
    }
  }

  /** The primary steps down at once, or when forced because no secondary has caught up. */
  predicate Yields(stepDown: StepDownReply) {
    stepDown == Accepted || stepDown == NoCaughtUpSecondary(true)
  }

  /** The calls about the primary come back well: it comes up as it is, resized in place, or deleted once it yielded. */
  ghost predicate PrimaryCalls(r: PodReplies, stepDown: StepDownReply) {
    MemberCalls(r) && (!r.pod.updated && r.resize.NotPossible? ==> Yields(stepDown))
  }

  lemma PrimaryExactly(p: int, r: PodReplies, stepDown: StepDownReply)
    ensures Primary(p, r, stepDown).0 <==> PrimaryCalls(r, stepDown)
    ensures var events := Primary(p, r, stepDown).1;
            var leaves := !r.pod.updated && r.resize.NotPossible? && Yields(stepDown);
            && (Resized(p) in events <==> !r.pod.updated && r.resize.InPlace?)
            && (SteppedDown in events <==> leaves)
            && (Deleted(p) in events <==> leaves && r.deletes)
  {
    WaitedExactly(r.pod, r.polls);
    AwaitedMeaning(p, r.pod, r.polls);
    if r.resize.InPlace? {
      WaitedExactly(r.resize.copy.(updated := true), r.polls);
      AwaitedMeaning(p, r.resize.copy.(updated := true), r.polls);
    }
  }

  // ---------------------------------------------------------------- the whole call

  /** smartUpdate over the sorted list; `neverPrimary` holds for non-voting and hidden members. */
  function Updated(list: seq<int>, replies: Replies, stepDown: StepDownReply, neverPrimary: bool): (bool, seq<Event>) {
    var (ok, trace) := Secondaries(list, replies);
    var p := Tracked(list, replies);
    if !ok || neverPrimary || p.None? then (ok, trace)
    else var (last, events) := Primary(p.value, Of(replies, p.value), stepDown); (last, trace + events)
  }

  /** No election during the call: at most one pod answers as primary. */
  predicate OnePrimary(items: seq<int>, replies: Replies) {
    forall p, q ::
      p in items && q in items && Of(replies, p).primary == IsPrimary && Of(replies, q).primary == IsPrimary ==> p == q
  }

  /** Every call about the members comes back well, the primary's included. */
  ghost predicate AllCallsSucceed(items: seq<int>, replies: Replies, stepDown: StepDownReply, neverPrimary: bool) {
    && (forall o :: o in items ==> MemberOk(o, replies))
    && (neverPrimary || forall o :: LastPrimary(items, replies, o) ==> PrimaryCalls(Of(replies, o), stepDown))
  }

  /**
   The first `n` events are about secondaries, deleted in descending order; the rest about one
   primary, deleted only behind a step-down and only if it is neither current nor resizable.
   */
  ghost predicate SplitAt(trace: seq<Event>, items: seq<int>, replies: Replies, p: int, n: nat) {
    && n <= |trace|
    && DescendingDeletes(trace[..n]) && OnlySecondaries(trace[..n], items, replies)
    && (n < |trace| ==> LastPrimary(items, replies, p))
    && (forall i :: n <= i < |trace| ==> trace[i].SteppedDown? || trace[i].o == p)
    && (forall i :: n <= i < |trace| && trace[i].Deleted? ==>
          n < i && trace[i - 1] == SteppedDown && !Of(replies, p).pod.updated && Of(replies, p).resize.NotPossible?)
  }

  ghost predicate PrimaryLast(trace: seq<Event>, items: seq<int>, replies: Replies) {
    exists p, n :: SplitAt(trace, items, replies, p, n)
  }

  /** A pod seen after this call deleted it was read since, and is at the update revision, running and ready. */
  ghost predicate BackAsSeen(trace: seq<Event>, replies: Replies) {
    forall o, p :: Deleted(o) in trace && Seen(o, p) in trace ==> Got(Some(p)) in Of(replies, o).polls && Up(p)
  }

  /**
   What one call does: at every point at most one pod is out; secondaries before the primary; and
   on success every secondary and the last primary, without an election every listed pod, was seen
   at the update revision, running and ready.
   */
  lemma UpdatedMeaning(list: seq<int>, replies: Replies, stepDown: StepDownReply, neverPrimary: bool)
    requires StrictlyDescending(list)
    ensures var (ok, trace) := Updated(list, replies, stepDown, neverPrimary);
            && OneOut(trace) && PrimaryLast(trace, list, replies)
            && (ok ==> Out(trace) == {} && AllShown(list, replies, trace))
            && (ok && !neverPrimary ==> forall o :: LastPrimary(list, replies, o) ==> ShownReady(o, trace))
            && (ok && !neverPrimary && OnePrimary(list, replies) ==> forall o :: o in list ==> ShownReady(o, trace))
  {
    var (ok, trace) := Secondaries(list, replies);
    SecondariesMeaning(list, replies);
    SecondariesExactly(list, replies);
    TrackedIsPrimary(list, replies);
    var t := Tracked(list, replies);
    forall p ensures t == Some(p) <==> LastPrimary(list, replies, p) {
      TrackedExactly(list, replies, p);
    }
    if !ok || neverPrimary || t.None? {
      assert trace[..|trace|] == trace;
      assert SplitAt(trace, list, replies, 0, |trace|);
    } else {
      WithPrimary(list, replies, stepDown, trace, t.value);
    }
  }

  /** The call succeeds exactly when every call it makes does. */
  lemma UpdatedExactly(list: seq<int>, replies: Replies, stepDown: StepDownReply, neverPrimary: bool)
    requires StrictlyDescending(list)
    ensures Updated(list, replies, stepDown, neverPrimary).0 <==> AllCallsSucceed(list, replies, stepDown, neverPrimary)
  {
    SecondariesExactly(list, replies);
    var t := Tracked(list, replies);
    forall p ensures t == Some(p) <==> LastPrimary(list, replies, p) {
      TrackedExactly(list, replies, p);
    }
    if t.Some? {
      PrimaryExactly(t.value, Of(replies, t.value), stepDown);
    }
  }

  lemma WithPrimary(list: seq<int>, replies: Replies, stepDown: StepDownReply, trace: seq<Event>, p: int)
    requires OneOut(trace) && Out(trace) == {} && DescendingDeletes(trace) && OnlySecondaries(trace, list, replies)
    requires AllShown(list, replies, trace) && LastPrimary(list, replies, p)
    requires forall o :: o in list ==> MemberOk(o, replies)
    ensures var (ok, events) := Primary(p, Of(replies, p), stepDown);
            && OneOut(trace + events) && PrimaryLast(trace + events, list, replies)
            && AllShown(list, replies, trace + events)
            && (ok ==> Out(trace + events) == {} && ShownReady(p, trace + events))
            && (ok && OnePrimary(list, replies) ==> forall o :: o in list ==> ShownReady(o, trace + events))
  {
    var (ok, events) := Primary(p, Of(replies, p), stepDown);
    PrimaryShape(p, Of(replies, p), stepDown);
    OnePodMeaning(events, p, ok);
    OneOutConcat(trace, events);
    OutConcat(trace, events);
    PrimaryBehind(list, replies, trace, events, p);
    forall o | o in list && (Of(replies, o).primary == IsSecondary || (ok && o == p))
      ensures ShownReady(o, trace + events)
    {
      if o == p && ok {
        var q :| Seen(p, q) in events && Up(q);
        assert Seen(p, q) in trace + events;
      } else {
        assert ShownReady(o, trace);
        var q :| Seen(o, q) in trace && Up(q);
        assert Seen(o, q) in trace + events;
      }
    }
  }

  lemma PrimaryBehind(list: seq<int>, replies: Replies, trace: seq<Event>, events: seq<Event>, p: int)
    requires DescendingDeletes(trace) && OnlySecondaries(trace, list, replies)
    requires LastPrimary(list, replies, p)
    requires forall e :: e in events ==> e.SteppedDown? || e.o == p
    requires forall i :: 0 <= i < |events| && events[i] == Deleted(p) ==> i == 1 && events[0] == SteppedDown
    requires Deleted(p) in events ==> !Of(replies, p).pod.updated && Of(replies, p).resize.NotPossible?
    ensures PrimaryLast(trace + events, list, replies)
  {
    var all, n := trace + events, |trace|;
    assert all[..n] == trace;
    forall i | n <= i < |all| ensures all[i] == events[i - n] && events[i - n] in events {
    }
    assert SplitAt(all, list, replies, p, n);
  }

  /** Two parts of a trace about different pods. */
  lemma BackJoin(a: seq<Event>, b: seq<Event>, replies: Replies)
    requires BackAsSeen(a, replies) && BackAsSeen(b, replies)
    requires forall e, f :: e in a && f in b && !e.SteppedDown? && !f.SteppedDown? ==> e.o != f.o
    ensures BackAsSeen(a + b, replies)
  {
    forall o, p | Deleted(o) in a + b && Seen(o, p) in a + b ensures Got(Some(p)) in Of(replies, o).polls && Up(p) {
      assert Deleted(o) in a || Deleted(o) in b;
      assert Seen(o, p) in a || Seen(o, p) in b;
    }
  }

  /** Every secondary this call deleted and saw back was read since its deletion. */
  lemma {:induction false} SecondariesBack(list: seq<int>, replies: Replies)
    requires StrictlyDescending(list)
    ensures BackAsSeen(Secondaries(list, replies).1, replies)
  {
    if list == [] {
    } else {
      var o, rest := list[0], list[1..];
      AppliedBack(o, replies);
      AppliedMeaning(o, Of(replies, o));
      SecondariesBack(rest, replies);
      SecondariesMeaning(rest, replies);
      forall x | x in rest ensures x != o {
        var k :| 0 <= k < |rest| && rest[k] == x;
        assert list[k + 1] == x;
      }
      BackJoin(Applied(o, Of(replies, o)).1, Secondaries(rest, replies).1, replies);
    }
  }

  lemma AppliedBack(o: int, replies: Replies)
    ensures BackAsSeen(Applied(o, Of(replies, o)).1, replies)
  {
    AppliedShape(o, Of(replies, o));
  }

  lemma PrimaryBack(p: int, replies: Replies, stepDown: StepDownReply)
    ensures BackAsSeen(Primary(p, Of(replies, p), stepDown).1, replies)
  {
    PrimaryShape(p, Of(replies, p), stepDown);
  }

  lemma UpdatedBack(list: seq<int>, replies: Replies, stepDown: StepDownReply, neverPrimary: bool)
    requires StrictlyDescending(list)
    ensures BackAsSeen(Updated(list, replies, stepDown, neverPrimary).1, replies)
  {
    SecondariesBack(list, replies);
    SecondariesMeaning(list, replies);
    TrackedIsPrimary(list, replies);
    var t := Tracked(list, replies);
    if t.Some? {
      PrimaryBack(t.value, replies, stepDown);
      PrimaryShape(t.value, Of(replies, t.value), stepDown);
      BackJoin(Secondaries(list, replies).1, Primary(t.value, Of(replies, t.value), stepDown).1, replies);
    }
  }

  /** A pod this call deleted and saw back was created after that deletion, by the StatefulSet controller. */
  lemma SeenBackIsNew(trace: seq<Event>, replies: Replies, o: int, p: PodView, lives: seq<Life>)
    requires BackAsSeen(trace, replies) && Deleted(o) in trace && Seen(o, p) in trace
    requires IsLife(lives) && lives[0].pod == Some(Of(replies, o).pod) && ReadsFrom(Of(replies, o).polls, lives)
    requires Of(replies, o).pod.uid < lives[0].born && !Of(replies, o).pod.updated
    ensures Up(p) && lives[0].born <= p.uid && exists k :: 0 < k < |lives| && lives[k].pod == Some(p)
  {
    var k :| 0 <= k < |lives| && lives[k].pod == Some(p);
    SameOrNewer(lives, Of(replies, o).pod, k);
  }

  /**
   smartUpdate from the point where it starts on the members. `items` is the pod list as the API
   returned it.
   */
  method SmartUpdate(items: seq<int>, replies: Replies, stepDown: StepDownReply, neverPrimary: bool)
    returns (ok: bool, trace: seq<Event>)
    requires forall i, j :: 0 <= i < j < |items| ==> items[i] != items[j]
    ensures OneOut(trace) && PrimaryLast(trace, items, replies) && BackAsSeen(trace, replies)
    ensures ok ==> Out(trace) == {} && AllShown(items, replies, trace)
    ensures ok && !neverPrimary && OnePrimary(items, replies) ==> forall o :: o in items ==> ShownReady(o, trace)
    ensures ok && !neverPrimary ==> forall p :: LastPrimary(items, replies, p) ==> ShownReady(p, trace)
    ensures ok <==> AllCallsSucceed(items, replies, stepDown, neverPrimary)
  {
    var list := Sort(true, items);
    SortedStrictly(items, list);
    UpdatedMeaning(list, replies, stepDown, neverPrimary);
    UpdatedExactly(list, replies, stepDown, neverPrimary);
    UpdatedBack(list, replies, stepDown, neverPrimary);
    SameMembers(items, list, replies, Updated(list, replies, stepDown, neverPrimary).1);
    var primary;
    ok, trace, primary := UpdateSecondaries(list, replies);
    if !ok || neverPrimary || primary.None? {
      return;
    }
    ok, trace := UpdatePrimary(primary.value, Of(replies, primary.value), stepDown, trace);
  }

  lemma SameMembers(items: seq<int>, list: seq<int>, replies: Replies, trace: seq<Event>)
    requires multiset(list) == multiset(items)
    ensures forall o :: o in items <==> o in list
    ensures forall p :: LastPrimary(items, replies, p) <==> LastPrimary(list, replies, p)
    ensures PrimaryLast(trace, list, replies) ==> PrimaryLast(trace, items, replies)
  {
    forall o ensures o in items <==> o in list {
      assert o in items <==> o in multiset(items);
      assert o in list <==> o in multiset(list);
    }
    if PrimaryLast(trace, list, replies) {
      var p, n :| SplitAt(trace, list, replies, p, n);
      assert SplitAt(trace, items, replies, p, n);
    }
  }

  /** Sorting a list without repeats gives a strictly ordered one. */
  lemma SortedStrictly(items: seq<int>, list: seq<int>)
    requires Ordered(true, list) && multiset(list) == multiset(items)
    requires forall i, j :: 0 <= i < j < |items| ==> items[i] != items[j]
    ensures StrictlyDescending(list)
  {
    forall i, j | 0 <= i < j < |list| ensures list[i] > list[j] {
      if list[i] == list[j] {
        TwiceInList(list, i, j);
        OnceInList(items, list[i]);
      }
    }
  }

  lemma TwiceInList(s: seq<int>, i: nat, j: nat)
    requires i < j < |s| && s[i] == s[j]
    ensures multiset(s)[s[i]] >= 2
  {
    assert s == s[..i] + [s[i]] + s[i + 1..j] + [s[j]] + s[j + 1..];
  }

  lemma {:induction false} OnceInList(s: seq<int>, x: int)
    requires forall i, j :: 0 <= i < j < |s| ==> s[i] != s[j]
    ensures multiset(s)[x] <= 1
  {
    if s == [] {
    } else {
      var init, last := s[..|s| - 1], s[|s| - 1];
      assert s == init + [last];
      OnceInList(init, x);
      if x == last {
        assert x !in init;
      }
    }
  }
}
