/**
 Retention of scheduled backups: the oldest ready backups beyond the number to keep, taken from a
 binary heap ordered by creation time. The heap is Go's container/heap over a slice.
 */
module RetentionHeap {

  datatype Backup = Backup(name: string, created: int, ready: bool)

  function Parent(k: int): int {
    (k - 1) / 2
  }

  function Swapped(s: seq<Backup>, i: nat, j: nat): seq<Backup>
    requires i < |s| && j < |s|
  {
    s[i := s[j]][j := s[i]]
  }

  /** No entry below `n` is older than its parent. */
  ghost predicate IsHeap(s: seq<Backup>, n: nat)
    requires n <= |s|
  {
    forall k :: 1 <= k < n ==> 0 <= Parent(k) < k && s[Parent(k)].created <= s[k].created
  }

  /** A heap but for entry `j` and its parent; what hangs below `j` is not older than that parent either. */
  ghost predicate HeapButUp(s: seq<Backup>, j: nat)
    requires j < |s|
  {
    && (forall k :: 1 <= k < |s| && k != j ==> s[Parent(k)].created <= s[k].created)
    && (forall k :: 1 <= k < |s| && Parent(k) == j && j >= 1 ==> s[Parent(j)].created <= s[k].created)
  }

  /** A heap but for entry `i` and its children. */
  ghost predicate HeapButDown(s: seq<Backup>, i: nat, n: nat)
    requires i < n <= |s|
  {
    && (forall k :: 1 <= k < n && Parent(k) != i ==> s[Parent(k)].created <= s[k].created)
    && (forall k :: 1 <= k < n && Parent(k) == i && i >= 1 ==> s[Parent(i)].created <= s[k].created)
  }

  lemma SwapKeeps(s: seq<Backup>, i: nat, j: nat)
    requires i < |s| && j < |s|
    ensures multiset(Swapped(s, i, j)) == multiset(s)
  {
  }

  /** The swap of `up` moves the offending entry to its parent's place. */
  lemma UpStep(s: seq<Backup>, j: nat)
    requires 1 <= j < |s| && HeapButUp(s, j) && s[j].created < s[Parent(j)].created
    ensures HeapButUp(Swapped(s, Parent(j), j), Parent(j))
  {
    var i, t := Parent(j), Swapped(s, Parent(j), j);
    forall k | 1 <= k < |t| && k != i ensures t[Parent(k)].created <= t[k].created {
      assert s[Parent(k)].created <= s[k].created || k == j;
    }
    forall k | 1 <= k < |t| && Parent(k) == i && i >= 1 ensures t[Parent(i)].created <= t[k].created {
      assert s[Parent(i)].created <= s[i].created;
      assert k != j ==> s[i].created <= s[k].created;
    }
  }

  /** The swap of `down` moves the offending entry to the place of its oldest child. */
  lemma DownStep(s: seq<Backup>, i: nat, j: nat, n: nat)
    requires i < j < n <= |s| && HeapButDown(s, i, n) && Parent(j) == i && s[j].created < s[i].created
    requires forall k :: 1 <= k < n && Parent(k) == i ==> s[j].created <= s[k].created
    ensures HeapButDown(Swapped(s, i, j), j, n)
  {
    var t := Swapped(s, i, j);
    forall k | 1 <= k < n && Parent(k) != j ensures t[Parent(k)].created <= t[k].created {
      if Parent(k) != i {
        assert s[Parent(k)].created <= s[k].created;
      }
    }
    forall k | 1 <= k < n && Parent(k) == j ensures t[Parent(j)].created <= t[k].created {
      assert s[Parent(k)].created <= s[k].created;
    }
  }

  /** The root is the oldest. */
  lemma {:induction false} RootIsOldest(s: seq<Backup>, n: nat, k: nat)
    requires k < n <= |s| && IsHeap(s, n)
    ensures s[0].created <= s[k].created
  {
    if k == 0 {
    } else {
      RootIsOldest(s, n, Parent(k));
    }
  }

  class MinHeap {
    var items: seq<Backup>

    constructor ()
      ensures items == []
    {
      items := [];
    }

    method Swap(i: nat, j: nat)
      requires i < |items| && j < |items|
      modifies this
      ensures items == Swapped(old(items), i, j)
    {
      items := items[i := items[j]][j := items[i]];
    }

    method Up(start: nat)
      requires start < |items| && HeapButUp(items, start)
      modifies this
      ensures IsHeap(items, |items|) && multiset(items) == multiset(old(items)) && |items| == |old(items)|
    {
      var j := start;
      while j > 0 && items[j].created < items[Parent(j)].created
        invariant 0 <= j < |items| == |old(items)| && HeapButUp(items, j)
        invariant multiset(items) == multiset(old(items))
      {
        UpStep(items, j);
        SwapKeeps(items, Parent(j), j);
        var i := Parent(j);
        Swap(i, j);
        j := i;
      }
    }

    method Push(x: Backup)
      requires IsHeap(items, |items|)
      modifies this
      ensures IsHeap(items, |items|) && multiset(items) == multiset(old(items)) + multiset{x}
      ensures |items| == |old(items)| + 1
    {
      items := items + [x];
      assert HeapButUp(items, |items| - 1);
      Up(|items| - 1);
    }

    method Down(start: nat, n: nat)
      requires start < n <= |items| && HeapButDown(items, start, n)
      modifies this
      ensures Rearranged(old(items), items, n) && IsHeap(items, n)
    {
      var i := start;
      while 2 * i + 1 < n
        invariant 0 <= i < n <= |items| && Rearranged(old(items), items, n) && HeapButDown(items, i, n)
        decreases n - i
      {
        var j := OlderChild(items, i, n);
        if !(items[j].created < items[i].created) {
          NothingOffends(items, i, n);
          return;
        }
        DownStep(items, i, j, n);
        SwapRearranges(old(items), items, i, j, n);
        Swap(i, j);
        i := j;
      }
      NoChild(i, n);
      NothingOffends(items, i, n);
    }

    method Pop() returns (x: Backup)
      requires items != [] && IsHeap(items, |items|)
      modifies this
      ensures IsHeap(items, |items|) && multiset(old(items)) == multiset(items) + multiset{x}
      ensures |items| == |old(items)| - 1
      ensures forall k :: k in items ==> x.created <= k.created
    {
      ghost var was := items;
      var n := |items| - 1;
      Swap(0, n);
      if n > 0 {
        RootSwapped(was);
        Down(0, n);
      }
      PoppedRoot(was, items);
      x := items[n];
      items := items[..n];
    }
  }

  /** The entries below `n` are rearranged, the others where they were. */
  ghost predicate Rearranged(s: seq<Backup>, t: seq<Backup>, n: nat) {
    |t| == |s| && n <= |s| && t[n..] == s[n..] && multiset(t) == multiset(s)
  }

  lemma SwapRearranges(s: seq<Backup>, t: seq<Backup>, i: nat, j: nat, n: nat)
    requires Rearranged(s, t, n) && i < n && j < n
    ensures Rearranged(s, Swapped(t, i, j), n)
  {
    SwapKeeps(t, i, j);
    assert Swapped(t, i, j)[n..] == t[n..];
  }

  lemma NoChild(i: nat, n: nat)
    requires 2 * i + 1 >= n
    ensures forall k :: 1 <= k < n ==> Parent(k) != i
  {
  }

  lemma NothingOffends(s: seq<Backup>, i: nat, n: nat)
    requires i < n <= |s| && HeapButDown(s, i, n)
    requires forall k :: 1 <= k < n && Parent(k) == i ==> s[i].created <= s[k].created
    ensures IsHeap(s, n)
  {
  }

  lemma RootSwapped(s: seq<Backup>)
    requires |s| > 1 && IsHeap(s, |s|)
    ensures HeapButDown(Swapped(s, 0, |s| - 1), 0, |s| - 1)
  {
  }

  /** The former root is last and the oldest, and the rest is what is left. */
  lemma PoppedRoot(was: seq<Backup>, now: seq<Backup>)
    requires was != [] && IsHeap(was, |was|) && Rearranged(Swapped(was, 0, |was| - 1), now, |was| - 1)
    ensures var n := |was| - 1;
            && now[n] == was[0]
            && multiset(was) == multiset(now[..n]) + multiset{now[n]}
            && forall k :: k in now[..n] ==> now[n].created <= k.created
  {
    var n := |was| - 1;
    SwapKeeps(was, 0, n);
    assert now[n] == now[n..][0] && Swapped(was, 0, n)[n..][0] == was[0];
    assert now == now[..n] + [now[n]];
    forall k | k in now[..n] ensures now[n].created <= k.created {
      assert k in multiset(was);
      var i :| 0 <= i < |was| && was[i] == k;
      RootIsOldest(was, |was|, i);
    }
  }

  /** The older of the one or two children of `i`. */
  method OlderChild(s: seq<Backup>, i: nat, n: nat) returns (j: nat)
    requires 2 * i + 1 < n <= |s|
    ensures i < j < n && Parent(j) == i
    ensures forall k :: 1 <= k < n && Parent(k) == i ==> s[j].created <= s[k].created
  {
    j := 2 * i + 1;
    if j + 1 < n && s[j + 1].created < s[j].created {
      j := j + 1;
    }
    assert forall k :: Parent(k) == i ==> k == 2 * i + 1 || k == 2 * i + 2;
  }

  function ReadyOnes(list: seq<Backup>): seq<Backup> {
    if list == [] then [] else ReadyOnes(list[..|list| - 1]) + if list[|list| - 1].ready then [list[|list| - 1]] else []
  }

  /** The ready backups of a list, each as often as it is listed, and no others. */
  lemma {:induction false} ReadyOnesExactly(list: seq<Backup>, b: Backup)
    ensures multiset(ReadyOnes(list))[b] == if b.ready then multiset(list)[b] else 0
  {
    if list == [] {
    } else {
      var init, last := list[..|list| - 1], list[|list| - 1];
      assert list == init + [last];
      ReadyOnesExactly(init, b);
    }
  }

  /** Every entry of the first list is no newer than every entry of the second. */
  ghost predicate NoNewer(a: seq<Backup>, b: seq<Backup>) {
    forall x, y :: x in a && y in b ==> x.created <= y.created
  }

  ghost predicate InCreationOrder(s: seq<Backup>) {
    forall i, j :: 0 <= i < j < |s| ==> s[i].created <= s[j].created
  }

  method HeapOfReady(list: seq<Backup>) returns (h: MinHeap)
    ensures fresh(h) && IsHeap(h.items, |h.items|) && multiset(h.items) == multiset(ReadyOnes(list))
    ensures |h.items| == |ReadyOnes(list)|
  {
    h := new MinHeap();
    for i := 0 to |list|
      invariant fresh(h) && IsHeap(h.items, |h.items|)
      invariant multiset(h.items) == multiset(ReadyOnes(list[..i])) && |h.items| == |ReadyOnes(list[..i])|
    {
      assert list[..i + 1][..i] == list[..i];
      if list[i].ready {
        h.Push(list[i]);
      }
    }
    assert list[..|list|] == list;
  }

  /**
   oldScheduledBackups: the ready backups beyond the `keep` newest, oldest first. `kept` stands for
   those that stay.
   */
  method OldScheduledBackups(list: seq<Backup>, keep: nat) returns (old': seq<Backup>, ghost kept: seq<Backup>)
    ensures multiset(old') + multiset(kept) == multiset(ReadyOnes(list))
    ensures |old'| == if |ReadyOnes(list)| <= keep then 0 else |ReadyOnes(list)| - keep
    ensures NoNewer(old', kept) && InCreationOrder(old')
  {
    if |list| <= keep {
      ReadyFewer(list);
      return [], ReadyOnes(list);
    }
    var h := HeapOfReady(list);
    if |h.items| <= keep {
      return [], h.items;
    }
    old' := [];
    while |h.items| > keep
      invariant IsHeap(h.items, |h.items|) && keep <= |h.items|
      invariant multiset(old') + multiset(h.items) == multiset(ReadyOnes(list))
      invariant |old'| + |h.items| == |ReadyOnes(list)|
      invariant NoNewer(old', h.items) && InCreationOrder(old')
    {
      ghost var was, out := h.items, old';
      var o := h.Pop();
      TakenInOrder(out, was, h.items, o);
      old' := old' + [o];
    }
    kept := h.items;
  }

  lemma {:induction false} ReadyFewer(list: seq<Backup>)
    ensures |ReadyOnes(list)| <= |list|
  {
    if list == [] {
    } else {
      ReadyFewer(list[..|list| - 1]);
    }
  }

  lemma TakenInOrder(out: seq<Backup>, was: seq<Backup>, rest: seq<Backup>, o: Backup)
    requires NoNewer(out, was) && InCreationOrder(out)
    requires multiset(was) == multiset(rest) + multiset{o} && forall k :: k in rest ==> o.created <= k.created
    ensures NoNewer(out + [o], rest) && InCreationOrder(out + [o])
  {
    assert o in multiset(was);
    assert o in was;
    forall y | y in rest ensures y in was {
      assert y in multiset(was);
    }
  }
}
