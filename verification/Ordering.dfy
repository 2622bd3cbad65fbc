/** Stable sorting, lexicographic order and combinations, as the planner's library calls define them. */
module Ordering {
  import opened Collections

  ghost predicate TotalOrder<T(!new)>(le: (T, T) -> bool) {
    && (forall x, y :: le(x, y) || le(y, x))
    && (forall x, y, z :: le(x, y) && le(y, z) ==> le(x, z))
  }

  ghost predicate Sorted<T>(xs: seq<T>, le: (T, T) -> bool) {
    forall i, j :: 0 <= i < j < |xs| ==> le(xs[i], xs[j])
  }

  function Insert<T>(x: T, xs: seq<T>, le: (T, T) -> bool): seq<T> {
    if xs == [] || le(x, xs[0]) then [x] + xs else [xs[0]] + Insert(x, xs[1..], le)
  }

  /** The elements in key order, ties in their original order. */
  function SortBy<T>(xs: seq<T>, le: (T, T) -> bool): seq<T> {
    if xs == [] then [] else Insert(xs[0], SortBy(xs[1..], le), le)
  }

  lemma {:induction false} InsertElements<T>(x: T, xs: seq<T>, le: (T, T) -> bool)
    ensures multiset(Insert(x, xs, le)) == multiset{x} + multiset(xs)
  {
    if xs != [] && !le(x, xs[0]) {
      InsertElements(x, xs[1..], le);
      assert xs == [xs[0]] + xs[1..];
    }
  }

  lemma {:induction false} SortByElements<T>(xs: seq<T>, le: (T, T) -> bool)
    ensures multiset(SortBy(xs, le)) == multiset(xs)
  {
    if xs != [] {
      SortByElements(xs[1..], le);
      InsertElements(xs[0], SortBy(xs[1..], le), le);
      assert xs == [xs[0]] + xs[1..];
    }
  }

  lemma {:induction false} SortByMembers<T>(xs: seq<T>, le: (T, T) -> bool, x: T)
    ensures x in SortBy(xs, le) <==> x in xs
  {
    SortByElements(xs, le);
    assert x in multiset(SortBy(xs, le)) <==> x in SortBy(xs, le);
    assert x in multiset(xs) <==> x in xs;
  }

  lemma {:induction false} InsertIsSorted<T(!new)>(x: T, xs: seq<T>, le: (T, T) -> bool)
    requires TotalOrder(le) && Sorted(xs, le)
    ensures Sorted(Insert(x, xs, le), le)
  {
    if xs != [] {
      if le(x, xs[0]) {
        forall j | 0 <= j < |xs| ensures le(x, xs[j]) {
          assert j > 0 ==> le(xs[0], xs[j]);
        }
      } else {
        assert Sorted(xs[1..], le) by {
          forall i, j | 0 <= i < j < |xs[1..]| ensures le(xs[1..][i], xs[1..][j]) {
            assert le(xs[i + 1], xs[j + 1]);
          }
        }
        InsertIsSorted(x, xs[1..], le);
        var rest := Insert(x, xs[1..], le);
        InsertElements(x, xs[1..], le);
        forall j | 0 <= j < |rest| ensures le(xs[0], rest[j]) {
          assert rest[j] in multiset(rest);
          if rest[j] != x {
            assert rest[j] in multiset(xs[1..]) && rest[j] in xs[1..];
            var k :| 0 <= k < |xs[1..]| && xs[1..][k] == rest[j];
            assert le(xs[0], xs[k + 1]);
          }
        }
      }
    }
  }

  lemma {:induction false} SortByIsSorted<T(!new)>(xs: seq<T>, le: (T, T) -> bool)
    requires TotalOrder(le)
    ensures Sorted(SortBy(xs, le), le)
  {
    if xs != [] {
      SortByIsSorted(xs[1..], le);
      InsertIsSorted(xs[0], SortBy(xs[1..], le), le);
    }
  }

  // ---------- tuples of integers ----------

  function LexLe(a: seq<int>, b: seq<int>): bool {
    a == [] || (b != [] && (a[0] < b[0] || (a[0] == b[0] && LexLe(a[1..], b[1..]))))
  }

  lemma {:induction false} LexLeIsTotal(a: seq<int>, b: seq<int>)
    ensures LexLe(a, b) || LexLe(b, a)
    ensures LexLe(a, b) && LexLe(b, a) ==> a == b
  {
    if a != [] && b != [] {
      LexLeIsTotal(a[1..], b[1..]);
      assert a == [a[0]] + a[1..] && b == [b[0]] + b[1..];
    }
  }

  lemma {:induction false} LexLeTransitive(a: seq<int>, b: seq<int>, c: seq<int>)
    requires LexLe(a, b) && LexLe(b, c)
    ensures LexLe(a, c)
  {
    if a != [] && a[0] == b[0] && b[0] == c[0] {
      LexLeTransitive(a[1..], b[1..], c[1..]);
    }
  }

  function IntLe(a: int, b: int): bool {
    a <= b
  }

  lemma SameLeast(a: seq<int>, b: seq<int>)
    requires Sorted(a, IntLe) && Sorted(b, IntLe) && multiset(a) == multiset(b) && a != [] && b != []
    ensures a[0] == b[0]
  {
    assert a[0] in multiset(b) && b[0] in multiset(a);
    var i :| 0 <= i < |b| && b[i] == a[0];
    var j :| 0 <= j < |a| && a[j] == b[0];
    assert IntLe(b[0], b[i]) || i == 0;
    assert IntLe(a[0], a[j]) || j == 0;
  }

  lemma TailMultiset<T>(a: seq<T>)
    requires a != []
    ensures multiset(a[1..]) == multiset(a) - multiset{a[0]}
  {
    assert a == [a[0]] + a[1..];
  }

  /** Sorted tuples with the same elements are the same tuple. */
  lemma {:induction false} SortedTuplesAreEqual(a: seq<int>, b: seq<int>)
    requires Sorted(a, IntLe) && Sorted(b, IntLe) && multiset(a) == multiset(b)
    ensures a == b
  {
    assert |a| == |multiset(a)| == |multiset(b)| == |b|;
    if a != [] {
      SameLeast(a, b);
      TailMultiset(a);
      TailMultiset(b);
      SortedTail(a);
      SortedTail(b);
      SortedTuplesAreEqual(a[1..], b[1..]);
      assert a == [a[0]] + a[1..] && b == [b[0]] + b[1..];
    }
  }

  lemma SortedTail(a: seq<int>)
    requires Sorted(a, IntLe) && a != []
    ensures Sorted(a[1..], IntLe)
  {
    forall i, j | 0 <= i < j < |a[1..]| ensures IntLe(a[1..][i], a[1..][j]) {
      assert IntLe(a[i + 1], a[j + 1]);
    }
  }

  // ---------- combinations ----------

  function PrefixAll<T>(x: T, combinations: seq<seq<T>>): (r: seq<seq<T>>)
    ensures |r| == |combinations|
    ensures forall k :: 0 <= k < |r| ==> r[k] == [x] + combinations[k]
  {
    seq(|combinations|, k requires 0 <= k < |combinations| => [x] + combinations[k])
  }

  /** All ways to choose `count` elements, keeping their order, in the library's order. */
  function Combinations<T>(xs: seq<T>, count: nat): seq<seq<T>> {
    if count == 0 then [[]]
    else if xs == [] then []
    else PrefixAll(xs[0], Combinations(xs[1..], count - 1)) + Combinations(xs[1..], count)
  }
}
