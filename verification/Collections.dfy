/** Sequence and set facts shared by the models: sums, filters, subsequences and removal. */
module Collections {

  datatype Option<+T> = None | Some(value: T)

  datatype Result<+T, +E> = Ok(value: T) | Err(error: E)

  function Max(a: int, b: int): int {
    if a >= b then a else b
  }

  function Min(a: int, b: int): int {
    if a <= b then a else b
  }

  lemma SubsetSize<T>(a: set<T>, b: set<T>)
    requires a <= b
    ensures |a| <= |b|
  {
    assert b == a + (b - a) && a !! (b - a);
  }

  ghost predicate NoDuplicates<T>(xs: seq<T>) {
    forall i, j :: 0 <= i < j < |xs| ==> xs[i] != xs[j]
  }

  lemma NoDuplicatesTail<T>(xs: seq<T>)
    requires NoDuplicates(xs) && xs != []
    ensures NoDuplicates(xs[1..]) && xs[0] !in xs[1..]
  {
    forall i, j | 0 <= i < j < |xs[1..]| ensures xs[1..][i] != xs[1..][j] {
      assert xs[i + 1] != xs[j + 1];
    }
  }

  lemma Associative<T>(a: seq<T>, b: seq<T>, c: seq<T>)
    ensures (a + b) + c == a + (b + c)
  {
  }

  lemma TailElements<T>(xs: seq<T>, x: T)
    requires NoDuplicates(xs) && xs != []
    ensures x in xs[1..] <==> x in xs && x != xs[0]
  {
    NoDuplicatesTail(xs);
    assert xs == [xs[0]] + xs[1..];
  }

  lemma NoDuplicatesCons<T>(x: T, xs: seq<T>)
    requires NoDuplicates(xs)
    ensures x !in xs ==> NoDuplicates([x] + xs)
  {
    forall i, j | 0 <= i < j < |[x] + xs| && x !in xs ensures ([x] + xs)[i] != ([x] + xs)[j] {
      if i > 0 {
        assert xs[i - 1] != xs[j - 1];
      }
    }
  }

  lemma NoDuplicatesAppend<T>(xs: seq<T>, x: T)
    requires NoDuplicates(xs) && x !in xs
    ensures NoDuplicates(xs + [x])
  {
    forall i, j | 0 <= i < j < |xs + [x]| ensures (xs + [x])[i] != (xs + [x])[j] {
      assert xs[i] in xs;
    }
  }

  function ToSet<T(==)>(xs: seq<T>): set<T> {
    set x | x in xs
  }

  /** The total of `f` over a list. */
  function SumOf<T>(xs: seq<T>, f: T -> int): int {
    if xs == [] then 0 else f(xs[0]) + SumOf(xs[1..], f)
  }

  lemma {:induction false} SumOfAppend<T>(xs: seq<T>, ys: seq<T>, f: T -> int)
    ensures SumOf(xs + ys, f) == SumOf(xs, f) + SumOf(ys, f)
  {
    if xs == [] {
      assert xs + ys == ys;
    } else {
      assert (xs + ys)[1..] == xs[1..] + ys;
      SumOfAppend(xs[1..], ys, f);
    }
  }

  lemma SumOfOne<T>(x: T, f: T -> int)
    ensures SumOf([x], f) == f(x)
  {
    assert [x][1..] == [];
  }

  lemma SumOfPair<T>(a: T, b: T, f: T -> int)
    ensures SumOf([a, b], f) == f(a) + f(b)
  {
    assert [a, b] == [a] + [b];
    SumOfAppend([a], [b], f);
    SumOfOne(a, f);
    SumOfOne(b, f);
  }

  lemma {:induction false} SumOfCongruent<T>(xs: seq<T>, f: T -> int, g: T -> int)
    requires forall x :: x in xs ==> f(x) == g(x)
    ensures SumOf(xs, f) == SumOf(xs, g)
  {
    if xs != [] {
      SumOfCongruent(xs[1..], f, g);
    }
  }

  lemma {:induction false} SumOfNonNegative<T>(xs: seq<T>, f: T -> int)
    requires forall x :: x in xs ==> f(x) >= 0
    ensures SumOf(xs, f) >= 0
  {
    if xs != [] {
      SumOfNonNegative(xs[1..], f);
    }
  }

  /** Replacing one element changes the total by the difference of its two charges. */
  lemma SumOfUpdate<T>(xs: seq<T>, i: nat, x: T, f: T -> int)
    requires i < |xs|
    ensures SumOf(xs[i := x], f) == SumOf(xs, f) - f(xs[i]) + f(x)
  {
    assert xs == xs[..i] + [xs[i]] + xs[i + 1..];
    assert xs[i := x] == xs[..i] + [x] + xs[i + 1..];
    SumOfAppend(xs[..i] + [xs[i]], xs[i + 1..], f);
    SumOfAppend(xs[..i], [xs[i]], f);
    SumOfAppend(xs[..i] + [x], xs[i + 1..], f);
    SumOfAppend(xs[..i], [x], f);
  }

  /** The total does not depend on the order of the list. */
  lemma {:induction false} SumOfPermutation<T>(xs: seq<T>, ys: seq<T>, f: T -> int)
    requires multiset(xs) == multiset(ys)
    ensures SumOf(xs, f) == SumOf(ys, f)
  {
    if xs == [] {
      assert |multiset(ys)| == |ys|;
    } else {
      assert xs[0] in multiset(ys);
      var i :| 0 <= i < |ys| && ys[i] == xs[0];
      var rest := ys[..i] + ys[i + 1..];
      assert ys == ys[..i] + [ys[i]] + ys[i + 1..];
      assert multiset(rest) == multiset(ys) - multiset{xs[0]};
      assert xs == [xs[0]] + xs[1..];
      assert multiset(xs[1..]) == multiset(xs) - multiset{xs[0]};
      SumOfPermutation(xs[1..], rest, f);
      SumOfAppend(ys[..i] + [ys[i]], ys[i + 1..], f);
      SumOfAppend(ys[..i], [ys[i]], f);
      SumOfAppend(ys[..i], ys[i + 1..], f);
    }
  }

  /** The elements of a list that satisfy a test, in their original order. */
  function Filter<T>(xs: seq<T>, p: T -> bool): (kept: seq<T>)
    ensures forall x :: x in kept ==> x in xs && p(x)
    ensures forall x :: x in xs && p(x) ==> x in kept
    ensures |kept| <= |xs|
  {
    if xs == [] then []
    else if p(xs[0]) then [xs[0]] + Filter(xs[1..], p)
    else Filter(xs[1..], p)
  }

  lemma {:induction false} FilterCounts<T>(xs: seq<T>, p: T -> bool, x: T)
    ensures multiset(Filter(xs, p))[x] == if p(x) then multiset(xs)[x] else 0
  {
    if xs != [] {
      FilterCounts(xs[1..], p, x);
      assert xs == [xs[0]] + xs[1..];
    }
  }

  lemma {:induction false} FilterCongruent<T>(xs: seq<T>, p: T -> bool, q: T -> bool)
    requires forall x :: x in xs ==> p(x) == q(x)
    ensures Filter(xs, p) == Filter(xs, q)
  {
    if xs != [] {
      FilterCongruent(xs[1..], p, q);
    }
  }

  lemma {:induction false} FilterAll<T>(xs: seq<T>, p: T -> bool)
    requires forall x :: x in xs ==> p(x)
    ensures Filter(xs, p) == xs
  {
    if xs != [] {
      FilterAll(xs[1..], p);
    }
  }

  lemma {:induction false} FilterNone<T>(xs: seq<T>, p: T -> bool)
    requires forall x :: x in xs ==> !p(x)
    ensures Filter(xs, p) == []
  {
    if xs != [] {
      FilterNone(xs[1..], p);
    }
  }

  /** A total, split by a test and its complement. */
  lemma {:induction false} SumOfSplitFilter<T>(xs: seq<T>, p: T -> bool, q: T -> bool, f: T -> int)
    requires forall x :: x in xs ==> q(x) == !p(x)
    ensures SumOf(Filter(xs, p), f) + SumOf(Filter(xs, q), f) == SumOf(xs, f)
  {
    if xs != [] {
      SumOfSplitFilter(xs[1..], p, q, f);
    }
  }

  /** The total over the elements that pass a test. */
  lemma {:induction false} SumOfKept<T>(xs: seq<T>, p: T -> bool, f: T -> int, h: T -> int)
    requires forall x :: x in xs ==> h(x) == if p(x) then f(x) else 0
    ensures SumOf(Filter(xs, p), f) == SumOf(xs, h)
  {
    if xs != [] {
      SumOfKept(xs[1..], p, f, h);
    }
  }

  lemma {:induction false} ZeroSum<T>(xs: seq<T>, f: T -> int)
    requires forall x :: x in xs ==> f(x) == 0
    ensures SumOf(xs, f) == 0
  {
    if xs != [] {
      ZeroSum(xs[1..], f);
    }
  }

  lemma {:induction false} SumOfAdded<T>(xs: seq<T>, f: T -> int, g: T -> int, both: T -> int)
    requires forall x :: x in xs ==> both(x) == f(x) + g(x)
    ensures SumOf(xs, both) == SumOf(xs, f) + SumOf(xs, g)
  {
    if xs != [] {
      SumOfAdded(xs[1..], f, g, both);
    }
  }

  /** Any two elements, in list order, are related. */
  ghost predicate Pairwise<T>(xs: seq<T>, related: (T, T) -> bool) {
    forall i, j :: 0 <= i < j < |xs| ==> related(xs[i], xs[j])
  }

  lemma PairwiseAppend<T>(xs: seq<T>, x: T, related: (T, T) -> bool)
    requires Pairwise(xs, related) && forall y :: y in xs ==> related(y, x)
    ensures Pairwise(xs + [x], related)
  {
    forall i, j | 0 <= i < j < |xs + [x]| ensures related((xs + [x])[i], (xs + [x])[j]) {
      assert xs[i] in xs;
    }
  }

  lemma PairwiseTail<T>(xs: seq<T>, related: (T, T) -> bool)
    requires Pairwise(xs, related) && xs != []
    ensures Pairwise(xs[1..], related) && forall y :: y in xs[1..] ==> related(xs[0], y)
  {
    forall i, j | 0 <= i < j < |xs[1..]| ensures related(xs[1..][i], xs[1..][j]) {
      assert related(xs[i + 1], xs[j + 1]);
    }
    forall y | y in xs[1..] ensures related(xs[0], y) {
      var k :| 0 <= k < |xs[1..]| && xs[1..][k] == y;
      assert related(xs[0], xs[k + 1]);
    }
  }

  lemma PairwiseCons<T>(x: T, xs: seq<T>, related: (T, T) -> bool)
    requires Pairwise(xs, related) && forall y :: y in xs ==> related(x, y)
    ensures Pairwise([x] + xs, related)
  {
    forall i, j | 0 <= i < j < |[x] + xs| ensures related(([x] + xs)[i], ([x] + xs)[j]) {
      if i > 0 {
        assert related(xs[i - 1], xs[j - 1]);
      }
    }
  }

  lemma {:induction false} PairwiseFilter<T>(xs: seq<T>, keep: T -> bool, related: (T, T) -> bool)
    requires Pairwise(xs, related)
    ensures Pairwise(Filter(xs, keep), related)
  {
    if xs != [] {
      PairwiseTail(xs, related);
      PairwiseFilter(xs[1..], keep, related);
      if keep(xs[0]) {
        PairwiseCons(xs[0], Filter(xs[1..], keep), related);
      }
    }
  }

  /** `a` is what is left of `b` after erasing some of its elements. */
  ghost predicate Subsequence<T>(a: seq<T>, b: seq<T>)
    decreases |b|
  {
    a == []
    || (b != []
        && ((a[0] == b[0] && Subsequence(a[1..], b[1..])) || Subsequence(a, b[1..])))
  }

  lemma {:induction false} SubsequenceReflexive<T>(a: seq<T>)
    ensures Subsequence(a, a)
  {
    if a != [] {
      SubsequenceReflexive(a[1..]);
    }
  }

  lemma {:induction false} SubsequenceInsert<T>(a: seq<T>, left: seq<T>, x: T, right: seq<T>)
    requires Subsequence(a, left + right)
    ensures Subsequence(a, left + [x] + right)
    decreases |left|
  {
    if left == [] {
      assert left + right == right;
      assert (left + [x] + right)[1..] == right;
    } else {
      assert (left + right)[1..] == left[1..] + right;
      assert (left + [x] + right)[1..] == left[1..] + [x] + right;
      if a != [] {
        if a[0] == left[0] && Subsequence(a[1..], left[1..] + right) {
          SubsequenceInsert(a[1..], left[1..], x, right);
        } else {
          SubsequenceInsert(a, left[1..], x, right);
        }
      }
    }
  }

  lemma {:induction false} SubsequencePrefix<T>(a: seq<T>, prefix: seq<T>, b: seq<T>)
    requires Subsequence(a, b)
    ensures Subsequence(a, prefix + b)
  {
    if prefix == [] {
      assert prefix + b == b;
    } else {
      SubsequencePrefix(a, prefix[1..], b);
      assert (prefix + b)[1..] == prefix[1..] + b;
    }
  }

  /** A list without one of its elements. */
  function Without<T(==)>(xs: seq<T>, x: T): (rest: seq<T>)
    ensures x in xs ==> |rest| == |xs| - 1
    ensures x !in xs ==> rest == xs
  {
    if xs == [] then []
    else if xs[0] == x then xs[1..]
    else [xs[0]] + Without(xs[1..], x)
  }

  lemma {:induction false} WithoutElements<T>(xs: seq<T>, x: T)
    requires NoDuplicates(xs)
    ensures NoDuplicates(Without(xs, x))
    ensures forall y :: y in Without(xs, x) <==> y in xs && y != x
  {
    if xs != [] {
      NoDuplicatesTail(xs);
      WithoutElements(xs[1..], x);
      NoDuplicatesCons(xs[0], Without(xs[1..], x));
      assert forall y :: y in xs <==> y == xs[0] || y in xs[1..];
      if xs[0] != x {
        assert forall y :: y in Without(xs, x) <==> y == xs[0] || y in Without(xs[1..], x);
      }
    }
  }

  lemma {:induction false} SumOfWithout<T>(xs: seq<T>, x: T, f: T -> int)
    requires x in xs
    ensures SumOf(Without(xs, x), f) == SumOf(xs, f) - f(x)
  {
    if xs[0] != x {
      SumOfWithout(xs[1..], x, f);
    }
  }

  /** Moving the first element to the end. */
  function Rotated<T>(xs: seq<T>): seq<T>
    requires xs != []
  {
    xs[1..] + [xs[0]]
  }

  lemma RotatedElements<T>(xs: seq<T>)
    requires NoDuplicates(xs) && xs != []
    ensures NoDuplicates(Rotated(xs))
    ensures forall x :: x in Rotated(xs) <==> x in xs
  {
    NoDuplicatesTail(xs);
    var rotated := Rotated(xs);
    forall i, j | 0 <= i < j < |rotated| ensures rotated[i] != rotated[j] {
      assert rotated[i] == xs[i + 1];
    }
    assert xs == [xs[0]] + xs[1..];
  }

  lemma {:induction false} SumOfRotated<T>(xs: seq<T>, f: T -> int)
    requires xs != []
    ensures SumOf(Rotated(xs), f) == SumOf(xs, f)
  {
    SumOfAppend(xs[1..], [xs[0]], f);
  }

  /** Rotating a list while only the charge of its first element changes. */
  lemma {:induction false} SumOfRotatedUpdate<T>(xs: seq<T>, f: T -> int, g: T -> int)
    requires NoDuplicates(xs) && xs != []
    requires forall x :: x in xs && x != xs[0] ==> f(x) == g(x)
    ensures SumOf(Rotated(xs), g) == SumOf(xs, f) - f(xs[0]) + g(xs[0])
  {
    SumOfRotated(xs, g);
    NoDuplicatesTail(xs);
    SumOfCongruent(xs[1..], f, g);
  }

  /** The four ways a dictionary entry is put and dropped in passing. */
  lemma MapUpdates<K, V>(m: map<K, V>, k: K, x: V, y: V)
    ensures (m - {k})[k := x] == m[k := x]
    ensures m[k := x][k := y] == m[k := y]
    ensures m[k := x] - {k} == m - {k}
    ensures k !in m ==> m - {k} == m
    ensures k in m && m[k] == x ==> m[k := x] == m
  {
  }
}
