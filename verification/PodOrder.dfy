/** sortPodsByOrdinal: pods in ascending or descending order of their StatefulSet ordinal. */
module PodOrder {

  /** `x` may stand before `y`. */
  predicate Before(descending: bool, x: int, y: int) {
    if descending then x >= y else x <= y
  }

  predicate Ordered(descending: bool, ordinals: seq<int>) {
    forall i, j :: 0 <= i < j < |ordinals| ==> Before(descending, ordinals[i], ordinals[j])
  }

  /** Insertion into an ordered list, one comparison at a time. */
  method Insert(descending: bool, ordinals: seq<int>, x: int) returns (r: seq<int>)
    requires Ordered(descending, ordinals)
    ensures Ordered(descending, r)
    ensures multiset(r) == multiset(ordinals) + multiset{x}
  {
    var i := 0;
    while i < |ordinals| && Before(descending, ordinals[i], x)
      invariant 0 <= i <= |ordinals|
      invariant forall k :: 0 <= k < i ==> Before(descending, ordinals[k], x)
    {
      i := i + 1;
    }
    InsertedAt(descending, ordinals, x, i);
    r := Inserted(ordinals, x, i);
  }

  function Inserted(s: seq<int>, x: int, i: nat): seq<int>
    requires i <= |s|
  {
    s[..i] + [x] + s[i..]
  }

  lemma InsertedAt(descending: bool, s: seq<int>, x: int, i: nat)
    requires Ordered(descending, s) && i <= |s| && forall k :: 0 <= k < i ==> Before(descending, s[k], x)
    requires i < |s| ==> !Before(descending, s[i], x)
    ensures Ordered(descending, Inserted(s, x, i))
    ensures multiset(Inserted(s, x, i)) == multiset(s) + multiset{x}
  {
    InsertedMultiset(s, x, i);
    forall a, b | 0 <= a < b < |s| + 1 ensures Before(descending, Inserted(s, x, i)[a], Inserted(s, x, i)[b]) {
      InsertedPair(descending, s, x, i, a, b);
    }
  }

  lemma InsertedMultiset(s: seq<int>, x: int, i: nat)
    requires i <= |s|
    ensures multiset(Inserted(s, x, i)) == multiset(s) + multiset{x}
  {
    assert s == s[..i] + s[i..];
  }

  lemma InsertedPair(descending: bool, s: seq<int>, x: int, i: nat, a: nat, b: nat)
    requires Ordered(descending, s) && i <= |s| && forall k :: 0 <= k < i ==> Before(descending, s[k], x)
    requires i < |s| ==> !Before(descending, s[i], x)
    requires a < b <= |s|
    ensures Before(descending, Inserted(s, x, i)[a], Inserted(s, x, i)[b])
  {
    if a < i < b {
      assert Before(descending, s[a], s[b - 1]);
    } else if a == i {
      assert b - 1 == i || Before(descending, s[i], s[b - 1]);
    } else if a > i {
      assert Before(descending, s[a - 1], s[b - 1]);
    }
  }

  method Sort(descending: bool, ordinals: seq<int>) returns (r: seq<int>)
    ensures Ordered(descending, r)
    ensures multiset(r) == multiset(ordinals)
  {
    r := [];
    for i := 0 to |ordinals|
      invariant Ordered(descending, r)
      invariant multiset(r) == multiset(ordinals[..i])
    {
      assert ordinals[..i + 1] == ordinals[..i] + [ordinals[i]];
      r := Insert(descending, r, ordinals[i]);
    }
    assert ordinals[..|ordinals|] == ordinals;
  }

  /** Two ordered lists of the same entries are the same list. */
  lemma {:induction false} OrderedUnique(descending: bool, a: seq<int>, b: seq<int>)
    requires Ordered(descending, a) && Ordered(descending, b)
    requires multiset(a) == multiset(b)
    ensures a == b
  {
    SameLength(a, b);
    if a == [] {
    } else {
      SameHead(descending, a, b);
      OrderedUnique(descending, a[1..], b[1..]);
      HeadAndTail(a);
      HeadAndTail(b);
    }
  }

  lemma SameLength(a: seq<int>, b: seq<int>)
    requires multiset(a) == multiset(b)
    ensures |a| == |b|
  {
    assert |multiset(a)| == |a| && |multiset(b)| == |b|;
  }

  lemma HeadAndTail(s: seq<int>)
    requires s != []
    ensures s == [s[0]] + s[1..]
  {
  }

  /** They begin alike, and what is left are ordered lists of the same entries again. */
  lemma SameHead(descending: bool, a: seq<int>, b: seq<int>)
    requires Ordered(descending, a) && Ordered(descending, b) && multiset(a) == multiset(b) && a != [] && b != []
    ensures a[0] == b[0] && Ordered(descending, a[1..]) && Ordered(descending, b[1..])
    ensures multiset(a[1..]) == multiset(b[1..])
  {
    HeadIsExtreme(descending, a, b);
    HeadIsExtreme(descending, b, a);
    TailMultiset(a);
    TailMultiset(b);
    TailOrdered(descending, a);
    TailOrdered(descending, b);
  }

  lemma HeadIsExtreme(descending: bool, a: seq<int>, b: seq<int>)
    requires Ordered(descending, a) && multiset(a) == multiset(b) && a != [] && b != []
    ensures Before(descending, a[0], b[0])
  {
    assert b[0] in multiset(b);
    assert b[0] in a;
  }

  lemma TailOrdered(descending: bool, s: seq<int>)
    requires s != [] && Ordered(descending, s)
    ensures Ordered(descending, s[1..])
  {
  }

  lemma TailMultiset(s: seq<int>)
    requires s != []
    ensures multiset(s[1..]) == multiset(s) - multiset{s[0]}
  {
    assert s == [s[0]] + s[1..];
  }
}
