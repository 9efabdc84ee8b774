/** The order in which update_cache loads its window, and the indices it
    evicts (src/imagelist.cc:387-400).

    The source sorts with a comparator whose key is the index itself for
    indices at or after the current one, and `std::abs(a - m_Index) + 1e18`
    (a double) for earlier ones. The model uses the integer key that key is
    meant to be: the index itself at or after the current one, and `size`
    plus the distance before it, so that every earlier index comes after
    every later one and nearer earlier indices come first. */
module Priority {
  import opened Util

  /** Every index of the list at or after the current one has a key below
      `size`, every earlier one a key above it. */
  function PriorityKey(index: int, size: int, a: int): (k: int)
    ensures 0 <= a < size ==> (k < size <==> index <= a)
  {
    if a < index then size + (index - a) else a
  }

  /** `s` is in strictly increasing key order: what std::sort with the
      comparator produces from distinct indices. */
  predicate PrioritySorted(s: seq<int>, index: int, size: int)
  {
    forall j, k :: 0 <= j < k < |s| ==> PriorityKey(index, size, s[j]) < PriorityKey(index, size, s[k])
  }

  /** The members of `s` in [lo, hi), in increasing order. */
  function Ascending(s: set<int>, lo: int, hi: int): (r: seq<int>)
    decreases hi - lo
    ensures forall x :: x in r <==> x in s && lo <= x < hi
    ensures forall j :: 0 <= j < |r| ==> lo <= r[j] < hi
    ensures forall j, k :: 0 <= j < k < |r| ==> r[j] < r[k]
  {
    if lo >= hi then []
    else if lo in s then [lo] + Ascending(s, lo + 1, hi)
    else Ascending(s, lo + 1, hi)
  }

  /** The members of `s` in [lo, hi), in decreasing order. */
  function Descending(s: set<int>, lo: int, hi: int): (r: seq<int>)
    decreases hi - lo
    ensures forall x :: x in r <==> x in s && lo <= x < hi
    ensures forall j :: 0 <= j < |r| ==> lo <= r[j] < hi
    ensures forall j, k :: 0 <= j < k < |r| ==> r[j] > r[k]
  {
    if lo >= hi then []
    else if hi - 1 in s then [hi - 1] + Descending(s, lo, hi - 1)
    else Descending(s, lo, hi - 1)
  }

  /** The window `w` in load order: the current index, then the later
      indices ascending, then the earlier ones by increasing distance. */
  function PriorityOrder(w: seq<int>, index: int, size: int): seq<int>
  {
    var s := Elements(w);
    (if index in s then [index] else []) + Ascending(s, index + 1, size) + Descending(s, 0, index)
  }

  /** The indices of the old cache that the new window no longer holds, in
      increasing order: std::set_difference of the two sorted vectors. */
  function Evicted(oldCache: seq<int>, window: seq<int>, size: int): (r: seq<int>)
    ensures forall x :: x in r <==> x in oldCache && x !in window && 0 <= x < size
    ensures forall j, k :: 0 <= j < k < |r| ==> r[j] < r[k]
    ensures NoDup(r)
  {
    Ascending(Elements(oldCache) - Elements(window), 0, size)
  }

  predicate InRange(w: seq<int>, size: int)
  {
    forall j :: 0 <= j < |w| ==> 0 <= w[j] < size
  }

  lemma SortedNoDup(r: seq<int>, index: int, size: int)
    requires PrioritySorted(r, index, size)
    ensures NoDup(r)
  {
  }

  /** Two key-sorted lists, every key of the first below every key of the
      second, make a key-sorted list. */
  lemma SortedConcat(x: seq<int>, y: seq<int>, index: int, size: int)
    requires PrioritySorted(x, index, size) && PrioritySorted(y, index, size)
    requires forall i, j :: 0 <= i < |x| && 0 <= j < |y| ==> PriorityKey(index, size, x[i]) < PriorityKey(index, size, y[j])
    ensures PrioritySorted(x + y, index, size)
  {
    var r := x + y;
    forall j, k | 0 <= j < k < |r|
      ensures PriorityKey(index, size, r[j]) < PriorityKey(index, size, r[k])
    {
      if k < |x| {
        assert r[j] == x[j] && r[k] == x[k];
      } else if j < |x| {
        assert r[j] == x[j] && r[k] == y[k - |x|];
      } else {
        assert r[j] == y[j - |x|] && r[k] == y[k - |x|];
      }
    }
  }

  /** The later indices, ascending, are sorted by the key, which is the
      index itself there. */
  lemma AscendingSorted(a: seq<int>, s: set<int>, index: int, size: int)
    requires a == Ascending(s, index + 1, size)
    ensures PrioritySorted(a, index, size)
    ensures forall j :: 0 <= j < |a| ==> PriorityKey(index, size, a[j]) < size
  {
  }

  /** The earlier indices, descending, are sorted by the key, which is
      `size` plus the distance there. */
  lemma DescendingSorted(d: seq<int>, s: set<int>, index: int, size: int)
    requires d == Descending(s, 0, index)
    ensures PrioritySorted(d, index, size)
    ensures forall j :: 0 <= j < |d| ==> size < PriorityKey(index, size, d[j])
  {
  }

  /** The current index followed by the later indices ascending is sorted
      by the key, and every key there is below `size`. */
  lemma HeadAscendingSorted(ha: seq<int>, s: set<int>, index: int, size: int)
    requires 0 <= index < size
    requires ha == (if index in s then [index] else []) + Ascending(s, index + 1, size)
    ensures PrioritySorted(ha, index, size)
    ensures forall i :: 0 <= i < |ha| ==> PriorityKey(index, size, ha[i]) < size
  {
    var h := if index in s then [index] else [];
    var a := Ascending(s, index + 1, size);
    AscendingSorted(a, s, index, size);
    SortedConcat(h, a, index, size);
    forall i | 0 <= i < |ha| ensures PriorityKey(index, size, ha[i]) < size {
      if i < |h| {
        assert ha[i] == index;
      } else {
        assert ha[i] == a[i - |h|];
      }
    }
  }

  /** The load order holds exactly the indices of the window. */
  lemma PriorityOrderMembers(w: seq<int>, index: int, size: int)
    requires 0 <= index < size && InRange(w, size)
    ensures forall x :: x in PriorityOrder(w, index, size) <==> x in w
  {
    var s := Elements(w);
    var h := if index in s then [index] else [];
    var a := Ascending(s, index + 1, size);
    var d := Descending(s, 0, index);
    var r := PriorityOrder(w, index, size);
    assert r == h + a + d;
    forall x ensures x in r <==> x in w {
      assert x in r <==> x in h || x in a || x in d;
      if x in w {
        var j :| 0 <= j < |w| && w[j] == x;
      }
    }
  }

  /** The load order is sorted by the comparator's key. */
  lemma PriorityOrderSorted(w: seq<int>, index: int, size: int)
    requires 0 <= index < size
    ensures PrioritySorted(PriorityOrder(w, index, size), index, size)
  {
    var s := Elements(w);
    var ha := (if index in s then [index] else []) + Ascending(s, index + 1, size);
    var d := Descending(s, 0, index);
    assert PriorityOrder(w, index, size) == ha + d;
    HeadAscendingSorted(ha, s, index, size);
    DescendingSorted(d, s, index, size);
    SortedConcat(ha, d, index, size);
  }

  /** The load order lists every index of the window once and nothing else,
      starts with the current index and is sorted by the comparator's key. */
  lemma PriorityOrderCorrect(w: seq<int>, index: int, size: int)
    requires 0 <= index < size && InRange(w, size)
    ensures var r := PriorityOrder(w, index, size);
      && (forall x :: x in r <==> x in w)
      && NoDup(r)
      && PrioritySorted(r, index, size)
      && (index in w ==> r[0] == index)
  {
    var r := PriorityOrder(w, index, size);
    PriorityOrderMembers(w, index, size);
    PriorityOrderSorted(w, index, size);
    SortedNoDup(r, index, size);
    if index in w {
      assert index in Elements(w);
    }
  }

  /** When the window repeats no index, the load order is a permutation of it. */
  lemma PriorityOrderPermutes(w: seq<int>, index: int, size: int)
    requires 0 <= index < size && InRange(w, size) && NoDup(w)
    ensures multiset(PriorityOrder(w, index, size)) == multiset(w)
    ensures |PriorityOrder(w, index, size)| == |w|
  {
    PriorityOrderCorrect(w, index, size);
    SameElementsPermutation(PriorityOrder(w, index, size), w);
  }

  /** The first entry of a sorted sequence has the least key. */
  lemma SortedFirstIsLeast(t: seq<int>, index: int, size: int, x: int)
    requires PrioritySorted(t, index, size) && x in t
    ensures PriorityKey(index, size, t[0]) <= PriorityKey(index, size, x)
  {
    var k :| 0 <= k < |t| && t[k] == x;
  }

  /** In a list without duplicates, the tail holds every member but the head. */
  lemma InTail(t: seq<int>, x: int)
    requires NoDup(t) && t != []
    ensures x in t[1..] <==> x in t && x != t[0]
  {
    if x in t[1..] {
      var k :| 0 <= k < |t[1..]| && t[1..][k] == x;
      assert t[k + 1] == x;
    }
    if x in t && x != t[0] {
      var k :| 0 <= k < |t| && t[k] == x;
      assert t[1..][k - 1] == x;
    }
  }

  /** The tail of a sorted, in-range list is sorted and in range. */
  lemma SortedTail(t: seq<int>, index: int, size: int)
    requires t != [] && InRange(t, size) && PrioritySorted(t, index, size)
    ensures InRange(t[1..], size) && PrioritySorted(t[1..], index, size)
  {
    var u := t[1..];
    forall j | 0 <= j < |u| ensures 0 <= u[j] < size {
      assert u[j] == t[j + 1];
    }
    forall j, k | 0 <= j < k < |u|
      ensures PriorityKey(index, size, u[j]) < PriorityKey(index, size, u[k])
    {
      assert u[j] == t[j + 1] && u[k] == t[k + 1];
    }
  }

  /** Any two sequences sorted by the comparator's key over the same indices
      are equal: sorting the window cannot give more than one result. */
  lemma {:induction false} SortedOrderUnique(t: seq<int>, r: seq<int>, index: int, size: int)
    requires 0 <= index < size && InRange(t, size) && InRange(r, size)
    requires PrioritySorted(t, index, size) && PrioritySorted(r, index, size)
    requires forall x :: x in t <==> x in r
    ensures t == r
    decreases |t|
  {
    SortedNoDup(t, index, size);
    SortedNoDup(r, index, size);
    SameElementsPermutation(t, r);
    if t != [] {
      assert t[0] in r && r[0] in t;
      SortedFirstIsLeast(t, index, size, r[0]);
      SortedFirstIsLeast(r, index, size, t[0]);
      assert t[0] == r[0];
      forall x ensures x in t[1..] <==> x in r[1..] {
        InTail(t, x);
        InTail(r, x);
      }
      SortedTail(t, index, size);
      SortedTail(r, index, size);
      SortedOrderUnique(t[1..], r[1..], index, size);
      assert t == [t[0]] + t[1..] && r == [r[0]] + r[1..];
    }
  }

  /** The load order of the window does not depend on the order in which
      update_cache pushed its entries. */
  lemma SortsToPriorityOrder(t: seq<int>, w: seq<int>, index: int, size: int)
    requires 0 <= index < size && InRange(w, size)
    requires PrioritySorted(t, index, size)
    requires forall x :: x in t <==> x in w
    ensures t == PriorityOrder(w, index, size)
  {
    PriorityOrderCorrect(w, index, size);
    var r := PriorityOrder(w, index, size);
    forall j | 0 <= j < |t| ensures 0 <= t[j] < size {
      assert t[j] in t;
    }
    forall j | 0 <= j < |r| ensures 0 <= r[j] < size {
      assert r[j] in r;
    }
    SortedOrderUnique(t, PriorityOrder(w, index, size), index, size);
  }
}
