/** The cache update_cache stores in m_Cache and hands to its loader: the
    window of src/imagelist.cc:355-385 sorted by the comparator of lines
    396-400. */
module CacheOrder {
  import opened Util
  import opened CacheWindow
  import opened Priority

  function LoadOrder(index: int, cacheSize: nat, size: int): seq<int>
  {
    PriorityOrder(Window(index, cacheSize, size), index, size)
  }

  /** The sorted cache holds the window's indices, each once, with the
      current index first, and is sorted by the comparator's key. */
  lemma LoadOrderShape(index: int, cacheSize: nat, size: int)
    requires 0 <= index < size
    ensures var r := LoadOrder(index, cacheSize, size);
      && |r| >= 1 && r[0] == index
      && InRange(r, size) && NoDup(r)
      && (forall x :: x in r <==> x in Window(index, cacheSize, size))
      && |r| == |Window(index, cacheSize, size)| && |r| <= 2 * cacheSize + 1
      && PrioritySorted(r, index, size)
  {
    var w := Window(index, cacheSize, size);
    var r := LoadOrder(index, cacheSize, size);
    WindowShape(index, cacheSize, size);
    assert index in w by { assert w[0] == index; }
    PriorityOrderCorrect(w, index, size);
    PriorityOrderPermutes(w, index, size);
    forall j | 0 <= j < |r| ensures 0 <= r[j] < size {
      assert r[j] in r;
      assert r[j] in w;
    }
  }

  /** What update_cache evicts is exactly what the old cache holds and the
      new one does not, each index once (src/imagelist.cc:387-405). */
  lemma EvictedLeaveCache(oldCache: seq<int>, index: int, cacheSize: nat, size: int)
    requires 0 <= index < size && InRange(oldCache, size)
    ensures var r := Evicted(oldCache, Window(index, cacheSize, size), size);
      && (forall x :: x in r <==> x in oldCache && x !in LoadOrder(index, cacheSize, size))
      && NoDup(r)
  {
    var w := Window(index, cacheSize, size);
    var r := Evicted(oldCache, w, size);
    LoadOrderShape(index, cacheSize, size);
    forall x | x in oldCache ensures 0 <= x < size {
      var j :| 0 <= j < |oldCache| && oldCache[j] == x;
    }
  }

  /** The load order spelled out: every index at or after the current one
      comes before every earlier index, the later indices ascend and the
      earlier ones descend, that is, come by increasing distance. */
  lemma LoadOrderDirections(index: int, cacheSize: nat, size: int)
    requires 0 <= index < size
    ensures var r := LoadOrder(index, cacheSize, size);
      forall j, k :: 0 <= j < k < |r| ==>
        && (r[j] >= index && r[k] >= index ==> r[j] < r[k])
        && (r[j] < index && r[k] < index ==> index - r[j] < index - r[k])
        && !(r[j] < index && r[k] >= index)
  {
    var r := LoadOrder(index, cacheSize, size);
    LoadOrderShape(index, cacheSize, size);
    forall j, k | 0 <= j < k < |r|
      ensures && (r[j] >= index && r[k] >= index ==> r[j] < r[k])
              && (r[j] < index && r[k] < index ==> index - r[j] < index - r[k])
              && !(r[j] < index && r[k] >= index)
    {
      assert PriorityKey(index, size, r[j]) < PriorityKey(index, size, r[k]);
      assert r[k] < size;
    }
  }

  /** The examples given in update_cache's comment
      (src/imagelist.cc:358-363): cache size 2 around the first of five
      images, and cache size 3 around index 4 of eight. */
  lemma FirstImageWindow()
    ensures LoadOrder(0, 2, 5) == [0, 1, 2, 3, 4]
  {
    assert Window(0, 2, 5) == [0, 1, 3, 2, 4];
    SortsToPriorityOrder([0, 1, 2, 3, 4], Window(0, 2, 5), 0, 5);
  }

  lemma MiddleImageWindow()
    ensures LoadOrder(4, 3, 8) == [4, 5, 6, 7, 3, 2, 1]
  {
    assert Window(4, 3, 8) == [4, 5, 3, 6, 2, 7, 1];
    SortsToPriorityOrder([4, 5, 6, 7, 3, 2, 1], Window(4, 3, 8), 4, 8);
  }

  /** Near the end the window takes what is missing after the current index
      from before it. */
  lemma NearEndWindow()
    ensures LoadOrder(9, 2, 11) == [9, 10, 8, 7, 6]
  {
    assert Window(9, 2, 11) == [9, 10, 8, 6, 7];
    SortsToPriorityOrder([9, 10, 8, 7, 6], Window(9, 2, 11), 9, 11);
  }
}
