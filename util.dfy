/** Small helpers shared by the model of the image list: an optional value,
    the minimum of two integers, duplicate-freedom, the set of a sequence's
    elements and the position that std::find returns. */
module Util {

  datatype Option<T> = None | Some(value: T)

  function Min(a: int, b: int): int
  {
    if a <= b then a else b
  }

  /** No value occurs twice in `s`. */
  predicate NoDup<T(==)>(s: seq<T>)
  {
    forall j, k :: 0 <= j < k < |s| ==> s[j] != s[k]
  }

  function Elements<T(==)>(s: seq<T>): set<T>
  {
    set x | x in s
  }

  /** The offset of the first occurrence of `x` in `s`, or `|s|` when `x` does
      not occur: `std::find(s.begin(), s.end(), x) - s.begin()`. */
  function Find<T(==)>(s: seq<T>, x: T): (k: nat)
    ensures k <= |s|
    ensures k < |s| ==> s[k] == x
    ensures forall j :: 0 <= j < k ==> s[j] != x
  {
    if s == [] then 0
    else if s[0] == x then 0
    else 1 + Find(s[1..], x)
  }

  lemma NoDupAppend<T>(s: seq<T>, x: T)
    requires NoDup(s) && x !in s
    ensures NoDup(s + [x])
  {
  }

  /** In a sequence without repetitions every element is counted once. */
  lemma {:induction false} NoDupMultiplicity<T>(s: seq<T>)
    requires NoDup(s)
    ensures forall x :: multiset(s)[x] == if x in s then 1 else 0
  {
    if s != [] {
      assert s == [s[0]] + s[1..];
      assert NoDup(s[1..]) by {
        forall j, k | 0 <= j < k < |s[1..]| ensures s[1..][j] != s[1..][k] {
          assert s[1..][j] == s[j + 1] && s[1..][k] == s[k + 1];
        }
      }
      NoDupMultiplicity(s[1..]);
      assert s[0] !in s[1..] by {
        forall j | 0 <= j < |s[1..]| ensures s[1..][j] != s[0] {
          assert s[1..][j] == s[j + 1];
        }
      }
      forall x ensures multiset(s)[x] == if x in s then 1 else 0 {
        assert multiset(s) == multiset([s[0]]) + multiset(s[1..]);
        assert x in s <==> x == s[0] || x in s[1..];
      }
    }
  }

  /** Two sequences without repetitions over the same elements are
      permutations of each other. */
  lemma SameElementsPermutation<T>(a: seq<T>, b: seq<T>)
    requires NoDup(a) && NoDup(b)
    requires forall x :: x in a <==> x in b
    ensures multiset(a) == multiset(b)
    ensures |a| == |b|
  {
    NoDupMultiplicity(a);
    NoDupMultiplicity(b);
    assert forall x :: multiset(a)[x] == multiset(b)[x];
    assert multiset(a) == multiset(b);
    assert |multiset(a)| == |a| && |multiset(b)| == |b|;
  }
}
