/** The prefetch window that ImageList::update_cache builds around the current
    index (src/imagelist.cc:353-385): the index itself, then for each radius
    step i = 1..cacheSize a forward neighbour (or, past the end, a compensating
    index behind the window) and a backward neighbour (or, before the start, a
    compensating index ahead of the window).

    Positions are mathematical integers. The source computes with size_t and
    casts the differences at lines 371 and 376 to int; for lists below 2^31
    images and cache sizes of at most 2^30 that cast yields the signed
    difference used here. */
module CacheWindow {
  import opened Util

  /** Forward pushes that succeeded in steps 1..k (the counter ncount):
      the neighbours index+1 .. index+k that lie before `size`. */
  function ForwardCount(index: int, size: int, k: nat): int
  {
    Min(k, size - 1 - index)
  }

  /** Backward pushes that succeeded in steps 1..k (the counter pcount). */
  function BackwardCount(index: int, k: nat): int
  {
    Min(k, index)
  }

  /** What step i pushes on the forward side, given ncount before the step. */
  function ForwardPush(index: int, cacheSize: int, size: int, i: int, ncount: int): seq<int>
  {
    if index + i < size then [index + i]
    else if index - i - cacheSize >= 0 then [index - i - cacheSize + ncount]
    else []
  }

  /** What step i pushes on the backward side, given pcount before the step. */
  function BackwardPush(index: int, cacheSize: int, size: int, i: int, pcount: int): seq<int>
  {
    if index - i >= 0 then [index - i]
    else if index + i + cacheSize < size then [index + i + cacheSize - pcount]
    else []
  }

  /** The vector `cache` after the first k steps of the loop. */
  function WindowAfter(index: int, cacheSize: nat, size: int, k: nat): seq<int>
    decreases k
  {
    if k == 0 then [index]
    else
      WindowAfter(index, cacheSize, size, k - 1)
      + ForwardPush(index, cacheSize, size, k, ForwardCount(index, size, k - 1))
      + BackwardPush(index, cacheSize, size, k, BackwardCount(index, k - 1))
  }

  /** The window update_cache computes, before it is sorted. */
  function Window(index: int, cacheSize: nat, size: int): seq<int>
  {
    WindowAfter(index, cacheSize, size, cacheSize)
  }

  function Pos(z: int): int
  {
    if z > 0 then z else 0
  }

  /** A closed description of the window after k steps. With f the room
      ahead of the index and b the room behind it, the window holds the index,
      the neighbours up to distance k on both sides that exist, the
      compensating indices pushed below index - cacheSize while the forward
      side is exhausted, and those pushed above index + cacheSize while the
      backward side is exhausted. */
  predicate InWindowAfter(index: int, cacheSize: nat, size: int, k: nat, x: int)
  {
    var f := size - 1 - index;
    var b := index;
    || x == index
    || index < x <= index + Min(k, f)
    || index - Min(k, b) <= x < index
    || index - cacheSize - (Min(k, b - cacheSize) - f) <= x < index - cacheSize
    || index + cacheSize < x <= index + cacheSize + (Min(k, f - cacheSize) - b)
  }

  /** The number of entries after k steps. */
  function LengthAfter(index: int, cacheSize: nat, size: int, k: nat): int
  {
    var f := size - 1 - index;
    var b := index;
    1 + Min(k, f) + Min(k, b) + Pos(Min(k, b - cacheSize) - f) + Pos(Min(k, f - cacheSize) - b)
  }

  /** The loop of update_cache (src/imagelist.cc:355-385). */
  method BuildWindow(index: int, cacheSize: nat, size: int) returns (cache: seq<int>)
    requires 0 <= index < size
    ensures cache == Window(index, cacheSize, size)
    ensures |cache| >= 1 && cache[0] == index
    ensures forall j :: 0 <= j < |cache| ==> 0 <= cache[j] < size
    ensures |cache| <= 2 * cacheSize + 1
    ensures NoDup(cache)
  {
    cache := [index];
    var ncount, pcount := 0, 0;
    var i := 1;
    while i < cacheSize + 1
      invariant 1 <= i <= cacheSize + 1
      invariant cache == WindowAfter(index, cacheSize, size, i - 1)
      invariant ncount == ForwardCount(index, size, i - 1)
      invariant pcount == BackwardCount(index, i - 1)
    {
      ghost var before := cache;
      ghost var forward := ForwardPush(index, cacheSize, size, i, ncount);
      ghost var backward := BackwardPush(index, cacheSize, size, i, pcount);
      if index + i < size {
        cache := cache + [index + i];
        ncount := ncount + 1;
      } else if index - i - cacheSize >= 0 {
        cache := cache + [index - i - cacheSize + ncount];
      }
      assert cache == before + forward;
      ghost var middle := cache;

      if index - i >= 0 {
        cache := cache + [index - i];
        pcount := pcount + 1;
      } else if index + i + cacheSize < size {
        cache := cache + [index + i + cacheSize - pcount];
      }
      assert cache == middle + backward;
      assert WindowAfter(index, cacheSize, size, i) == before + forward + backward;
      i := i + 1;
    }
    WindowShape(index, cacheSize, size);
  }

  /** Membership in the window after k steps is exactly the closed description. */
  lemma {:induction false} WindowAfterMembers(index: int, cacheSize: nat, size: int, k: nat)
    requires 0 <= index < size && k <= cacheSize
    ensures forall x :: x in WindowAfter(index, cacheSize, size, k) <==> InWindowAfter(index, cacheSize, size, k, x)
  {
    if k > 0 {
      WindowAfterMembers(index, cacheSize, size, k - 1);
      var prev := WindowAfter(index, cacheSize, size, k - 1);
      var fw := ForwardPush(index, cacheSize, size, k, ForwardCount(index, size, k - 1));
      var bw := BackwardPush(index, cacheSize, size, k, BackwardCount(index, k - 1));
      assert WindowAfter(index, cacheSize, size, k) == prev + fw + bw;
      forall x
        ensures x in prev + fw + bw <==> InWindowAfter(index, cacheSize, size, k, x)
      {
        assert x in prev + fw + bw <==> x in prev || x in fw || x in bw;
      }
    }
  }

  /** Step k pushes one entry on the forward side exactly when the forward
      neighbour or the compensating index behind the window is counted. */
  lemma ForwardPushLength(index: int, cacheSize: nat, size: int, k: nat)
    requires 0 <= index < size && 0 < k <= cacheSize
    ensures var f := size - 1 - index;
      |ForwardPush(index, cacheSize, size, k, ForwardCount(index, size, k - 1))|
      == Min(k, f) - Min(k - 1, f) + Pos(Min(k, index - cacheSize) - f) - Pos(Min(k - 1, index - cacheSize) - f)
  {
  }

  /** The same for the backward side. */
  lemma BackwardPushLength(index: int, cacheSize: nat, size: int, k: nat)
    requires 0 <= index < size && 0 < k <= cacheSize
    ensures var f := size - 1 - index;
      |BackwardPush(index, cacheSize, size, k, BackwardCount(index, k - 1))|
      == Min(k, index) - Min(k - 1, index) + Pos(Min(k, f - cacheSize) - index) - Pos(Min(k - 1, f - cacheSize) - index)
  {
  }

  /** The number of entries after k steps. */
  lemma {:induction false} WindowAfterLength(index: int, cacheSize: nat, size: int, k: nat)
    requires 0 <= index < size && k <= cacheSize
    ensures |WindowAfter(index, cacheSize, size, k)| == LengthAfter(index, cacheSize, size, k)
  {
    if k > 0 {
      WindowAfterLength(index, cacheSize, size, k - 1);
      ForwardPushLength(index, cacheSize, size, k);
      BackwardPushLength(index, cacheSize, size, k);
    }
  }

  /** The first entry is the index, and later steps only append. */
  lemma {:induction false} WindowAfterStartsAtIndex(index: int, cacheSize: nat, size: int, k: nat)
    ensures |WindowAfter(index, cacheSize, size, k)| >= 1
    ensures WindowAfter(index, cacheSize, size, k)[0] == index
  {
    if k > 0 {
      WindowAfterStartsAtIndex(index, cacheSize, size, k - 1);
    }
  }

  /** No step pushes an index that is already in the window. */
  lemma {:induction false} WindowAfterNoDup(index: int, cacheSize: nat, size: int, k: nat)
    requires 0 <= index < size && k <= cacheSize
    ensures NoDup(WindowAfter(index, cacheSize, size, k))
  {
    if k > 0 {
      WindowAfterNoDup(index, cacheSize, size, k - 1);
      WindowAfterMembers(index, cacheSize, size, k - 1);
      var prev := WindowAfter(index, cacheSize, size, k - 1);
      var fw := ForwardPush(index, cacheSize, size, k, ForwardCount(index, size, k - 1));
      var bw := BackwardPush(index, cacheSize, size, k, BackwardCount(index, k - 1));
      assert WindowAfter(index, cacheSize, size, k) == prev + fw + bw;
      var mid := prev + fw;
      if fw != [] {
        assert !InWindowAfter(index, cacheSize, size, k - 1, fw[0]);
        NoDupAppend(prev, fw[0]);
      }
      assert NoDup(mid);
      if bw != [] {
        assert !InWindowAfter(index, cacheSize, size, k - 1, bw[0]);
        assert fw != [] ==> fw[0] != bw[0];
        assert bw[0] !in mid;
        NoDupAppend(mid, bw[0]);
      }
    }
  }

  /** The properties update_cache's window always has: it starts with the
      index, stays inside the list, has at most 2 * cacheSize + 1 entries and
      repeats no index. */
  lemma WindowShape(index: int, cacheSize: nat, size: int)
    requires 0 <= index < size
    ensures var w := Window(index, cacheSize, size);
      && |w| >= 1 && w[0] == index
      && (forall j :: 0 <= j < |w| ==> 0 <= w[j] < size)
      && |w| <= 2 * cacheSize + 1
      && NoDup(w)
  {
    var w := Window(index, cacheSize, size);
    WindowAfterStartsAtIndex(index, cacheSize, size, cacheSize);
    WindowAfterMembers(index, cacheSize, size, cacheSize);
    WindowAfterLength(index, cacheSize, size, cacheSize);
    WindowAfterNoDup(index, cacheSize, size, cacheSize);
    forall j | 0 <= j < |w| ensures 0 <= w[j] < size {
      assert InWindowAfter(index, cacheSize, size, cacheSize, w[j]);
    }
  }

  /** Membership in the window, stated without reference to the loop. */
  lemma WindowMembers(index: int, cacheSize: nat, size: int, x: int)
    requires 0 <= index < size
    ensures x in Window(index, cacheSize, size) <==> InWindowAfter(index, cacheSize, size, cacheSize, x)
  {
    WindowAfterMembers(index, cacheSize, size, cacheSize);
  }

  /** Away from both ends the window is exactly [index - cacheSize, index + cacheSize]. */
  lemma CentredWindow(index: int, cacheSize: nat, size: int)
    requires cacheSize <= index && index + cacheSize < size
    ensures forall x :: x in Window(index, cacheSize, size) <==> index - cacheSize <= x <= index + cacheSize
    ensures |Window(index, cacheSize, size)| == 2 * cacheSize + 1
  {
    WindowAfterMembers(index, cacheSize, size, cacheSize);
    WindowAfterLength(index, cacheSize, size, cacheSize);
  }

  /** At the first image the backward shortfall is made up ahead of the
      window: the window is [0, min(2 * cacheSize, size - 1)]. */
  lemma WindowAtStart(cacheSize: nat, size: int)
    requires 0 < size
    ensures forall x :: x in Window(0, cacheSize, size) <==> 0 <= x <= Min(2 * cacheSize, size - 1)
    ensures |Window(0, cacheSize, size)| == Min(2 * cacheSize, size - 1) + 1
  {
    WindowAfterMembers(0, cacheSize, size, cacheSize);
    WindowAfterLength(0, cacheSize, size, cacheSize);
  }

  /** At the last image the forward shortfall is made up behind the window:
      with enough images before it the window is [index - 2 * cacheSize, index]. */
  lemma WindowAtEnd(index: int, cacheSize: nat, size: int)
    requires index == size - 1 && 2 * cacheSize <= index
    ensures forall x :: x in Window(index, cacheSize, size) <==> index - 2 * cacheSize <= x <= index
    ensures |Window(index, cacheSize, size)| == 2 * cacheSize + 1
  {
    WindowAfterMembers(index, cacheSize, size, cacheSize);
    WindowAfterLength(index, cacheSize, size, cacheSize);
  }

  /** The window is not always as large as the list allows: the guard at
      src/imagelist.cc:371 tests index - i - cacheSize but line 373 pushes
      that value plus ncount, and the guard at line 381 tests
      index + i + cacheSize but line 383 pushes that value minus pcount, so
      near either end one slot stays empty although an image is free. */
  lemma WindowCanBeShort()
    ensures Window(5, 3, 7) == [5, 6, 4, 1, 3, 2]
    ensures 0 !in Window(5, 3, 7) && |Window(5, 3, 7)| < Min(2 * 3 + 1, 7)
    ensures Window(1, 3, 7) == [1, 2, 0, 3, 5, 4]
    ensures 6 !in Window(1, 3, 7) && |Window(1, 3, 7)| < Min(2 * 3 + 1, 7)
  {
  }
}
