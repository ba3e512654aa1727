/** Small sequence vocabulary shared by every other module: optional values and
    results, filtering and counting, and the stable sort that JavaScript's
    `Array.prototype.sort` performs when given a numeric comparator. */
module Common {

  datatype Option<+T> = None | Some(value: T)

  datatype Result<+T, +E> = Success(value: T) | Failure(error: E) {
    predicate IsFailure() { Failure? }
    function PropagateFailure<U>(): Result<U, E>
      requires Failure?
    {
      Failure(error)
    }
    function Extract(): T
      requires Success?
    {
      value
    }
  }

  function Last<T>(s: seq<T>): T
    requires |s| > 0
  {
    s[|s| - 1]
  }

  function DropLast<T>(s: seq<T>): seq<T>
    requires |s| > 0
  {
    s[..|s| - 1]
  }

  /** The elements of `s` that satisfy `p`, in their order (JavaScript's `filter`). */
  function Filter<T>(s: seq<T>, p: T -> bool): (r: seq<T>)
    ensures |r| <= |s|
  {
    if s == [] then []
    else if p(Last(s)) then Filter(DropLast(s), p) + [Last(s)]
    else Filter(DropLast(s), p)
  }

  /** `f` applied to each element in order; the first failure ends the walk. */
  function MapResult<T, U, E>(xs: seq<T>, f: T -> Result<U, E>): Result<seq<U>, E> {
    if xs == [] then Success([])
    else
      var before :- MapResult(DropLast(xs), f);
      var y :- f(Last(xs));
      Success(before + [y])
  }

  /** The walk succeeds exactly when `f` succeeds on every element, and then it holds the
      results, one per element, in order. */
  lemma {:induction false} MapResultSpec<T, U, E>(xs: seq<T>, f: T -> Result<U, E>)
    ensures MapResult(xs, f).Success? <==> forall i :: 0 <= i < |xs| ==> f(xs[i]).Success?
    ensures MapResult(xs, f).Success? ==>
      |MapResult(xs, f).value| == |xs| && forall i :: 0 <= i < |xs| ==> MapResult(xs, f).value[i] == f(xs[i]).value
  {
    if xs != [] {
      var p := DropLast(xs);
      MapResultSpec(p, f);
      assert forall i :: 0 <= i < |p| ==> p[i] == xs[i];
    }
  }

  /** A failure on a prefix is the failure of the whole walk. */
  lemma {:induction false} MapResultFailureSticks<T, U, E>(xs: seq<T>, f: T -> Result<U, E>, n: nat)
    requires 0 < n <= |xs|
    requires MapResult(xs[..n], f).Failure?
    ensures MapResult(xs, f) == MapResult(xs[..n], f)
    decreases |xs| - n
  {
    if n < |xs| {
      PrefixStep(xs, n);
      MapResultFailureSticks(xs, f, n + 1);
    } else {
      assert xs[..n] == xs;
    }
  }

  /** Indexing into a sequence with one more element at its end. */
  lemma AppendAt<T>(s: seq<T>, x: T, i: nat)
    requires i <= |s|
    ensures (s + [x])[i] == if i < |s| then s[i] else x
  {
  }

  /** The prefix one element longer ends in that element. */
  lemma PrefixStep<T>(s: seq<T>, i: nat)
    requires i < |s|
    ensures DropLast(s[..i + 1]) == s[..i] && Last(s[..i + 1]) == s[i]
  {
  }

  /** An element of a nonempty sequence is in its front or is its last element. */
  lemma InDropLast<T>(s: seq<T>, x: T)
    requires s != []
    ensures x in s <==> x in DropLast(s) || x == Last(s)
  {
    assert s == DropLast(s) + [Last(s)];
  }

  /** The last element of a concatenation, and the rest of it, come from its second part. */
  lemma DropLastAppend<T>(a: seq<T>, b: seq<T>)
    requires b != []
    ensures DropLast(a + b) == a + DropLast(b) && Last(a + b) == Last(b)
  {
    assert DropLast(a + b) == a + DropLast(b);
  }

  /** A slice of `s` is the same slice of the suffix it starts. */
  lemma SliceOfSuffix<T>(s: seq<T>, a: nat, n: nat)
    requires a + n <= |s|
    ensures s[a..a + n] == s[a..][..n]
    ensures a + n < |s| ==> s[a + n] == s[a..][n]
  {
  }

  /** Concatenation is associative. */
  lemma ConcatAssoc<T>(a: seq<T>, b: seq<T>, c: seq<T>)
    ensures a + (b + c) == (a + b) + c
  {
  }

  lemma {:induction false} FilterAppend<T>(a: seq<T>, b: seq<T>, p: T -> bool)
    ensures Filter(a + b, p) == Filter(a, p) + Filter(b, p)
    decreases |b|
  {
    if b == [] {
      assert a + b == a;
    } else {
      assert DropLast(a + b) == a + DropLast(b);
      FilterAppend(a, DropLast(b), p);
    }
  }

  /** An element survives a filter exactly when it is in the input and satisfies the test. */
  lemma {:induction false} FilterMem<T>(s: seq<T>, p: T -> bool, x: T)
    ensures x in Filter(s, p) <==> x in s && p(x)
  {
    if s != [] {
      FilterMem(DropLast(s), p, x);
      assert s == DropLast(s) + [Last(s)];
    }
  }

  lemma {:induction false} FilterAll<T>(s: seq<T>, p: T -> bool)
    requires forall i :: 0 <= i < |s| ==> p(s[i])
    ensures Filter(s, p) == s
  {
    if s != [] {
      var q := DropLast(s);
      assert forall i :: 0 <= i < |q| ==> q[i] == s[i];
      FilterAll(q, p);
      assert p(s[|s| - 1]);
      assert s == q + [Last(s)];
    }
  }

  /** Number of occurrences of `x` in `s`, counting duplicates. */
  function Count<T(==)>(s: seq<T>, x: T): (n: nat)
    ensures n <= |s|
    ensures n == 0 <==> x !in s
  {
    if s == [] then 0
    else Count(DropLast(s), x) + (if Last(s) == x then 1 else 0)
  }

  lemma {:induction false} CountAppend<T>(a: seq<T>, b: seq<T>, x: T)
    ensures Count(a + b, x) == Count(a, x) + Count(b, x)
    decreases |b|
  {
    if b == [] {
      assert a + b == a;
    } else {
      assert DropLast(a + b) == a + DropLast(b);
      CountAppend(a, DropLast(b), x);
    }
  }

  /** `s` without any occurrence of `x` (JavaScript's `filter((d) => d !== x)`). */
  function RemoveAll<T(==)>(s: seq<T>, x: T): (r: seq<T>)
    ensures |r| == |s| - Count(s, x)
  {
    if s == [] then []
    else if Last(s) == x then RemoveAll(DropLast(s), x)
    else RemoveAll(DropLast(s), x) + [Last(s)]
  }

  lemma {:induction false} RemoveAllMem<T>(s: seq<T>, x: T, d: T)
    ensures d in RemoveAll(s, x) <==> d in s && d != x
  {
    if s != [] {
      var p := DropLast(s);
      assert s == p + [Last(s)];
      RemoveAllMem(p, x, d);
    }
  }

  lemma {:induction false} RemoveAllAbsent<T>(s: seq<T>, x: T)
    requires x !in s
    ensures RemoveAll(s, x) == s
  {
    if s != [] {
      var p := DropLast(s);
      assert s == p + [Last(s)];
      assert x !in p;
      RemoveAllAbsent(p, x);
    }
  }

  predicate Distinct<T(==)>(s: seq<T>) {
    forall i, j :: 0 <= i < j < |s| ==> s[i] != s[j]
  }

  lemma {:induction false} DistinctMultiplicity<T>(s: seq<T>, x: T)
    requires Distinct(s)
    ensures multiset(s)[x] <= 1
  {
    if s != [] {
      var p := DropLast(s);
      assert s == p + [Last(s)];
      assert Distinct(p);
      DistinctMultiplicity(p, x);
      if Last(s) == x {
        assert x !in p;
      }
    }
  }

  lemma DistinctConcat<T>(a: seq<T>, b: seq<T>)
    requires Distinct(a) && Distinct(b)
    requires forall i :: 0 <= i < |b| ==> b[i] !in a
    ensures Distinct(a + b)
  {
    var c := a + b;
    forall i, j | 0 <= i < j < |c| ensures c[i] != c[j] {
      if j >= |a| && i < |a| {
        assert c[j] == b[j - |a|] && c[i] == a[i];
      } else if i >= |a| {
        assert c[j] == b[j - |a|] && c[i] == b[i - |a|];
      }
    }
  }

  lemma ToSetMultiset<T>(a: seq<T>, b: seq<T>)
    requires multiset(a) == multiset(b)
    ensures ToSet(a) == ToSet(b)
  {
    forall x ensures x in a <==> x in b {
      assert x in a <==> x in multiset(a);
      assert x in b <==> x in multiset(b);
    }
  }

  /** A permutation of a sequence without repetitions has none either. */
  lemma DistinctPerm<T>(a: seq<T>, b: seq<T>)
    requires Distinct(a) && multiset(a) == multiset(b)
    ensures Distinct(b)
  {
    forall i, j | 0 <= i < j < |b| ensures b[i] != b[j] {
      if b[i] == b[j] {
        var x := b[i];
        assert b == b[..j] + [b[j]] + b[j + 1..];
        assert x in b[..j];
        assert multiset(b)[x] >= 2;
        DistinctMultiplicity(a, x);
      }
    }
  }

  /** A sequence longer than the set it draws from repeats an element. */
  lemma Pigeonhole<T>(s: seq<T>, u: set<T>)
    requires forall i :: 0 <= i < |s| ==> s[i] in u
    requires |s| > |u|
    ensures !Distinct(s)
  {
    if Distinct(s) {
      DistinctCard(s);
      assert ToSet(s) <= u;
      CardDiff(u, ToSet(s));
    }
  }

  lemma CardDiff<T>(a: set<T>, b: set<T>)
    requires b <= a
    ensures |a - b| == |a| - |b|
  {
    assert a == (a - b) + b;
    assert (a - b) * b == {};
  }

  function ToSet<T>(s: seq<T>): set<T> {
    set x | x in s
  }

  lemma ToSetAppend<T>(a: seq<T>, x: T)
    ensures ToSet(a + [x]) == ToSet(a) + {x}
  {
  }

  lemma {:induction false} DistinctCard<T>(s: seq<T>)
    requires Distinct(s)
    ensures |ToSet(s)| == |s|
  {
    if s != [] {
      var p := DropLast(s);
      assert Distinct(p);
      DistinctCard(p);
      assert ToSet(s) == ToSet(p) + {Last(s)};
      assert Last(s) !in ToSet(p);
    }
  }

  /** Index of the first occurrence of `x` (JavaScript's `indexOf`). */
  function IndexOf<T(==)>(s: seq<T>, x: T): (i: nat)
    requires x in s
    ensures i < |s| && s[i] == x
    ensures forall j :: 0 <= j < i ==> s[j] != x
  {
    if s[0] == x then 0 else 1 + IndexOf(s[1..], x)
  }

  // ---------------------------------------------------------------------------
  // Stable sort by an integer key.

  predicate SortedBy<T>(s: seq<T>, key: T -> int) {
    forall i, j :: 0 <= i < j < |s| ==> key(s[i]) <= key(s[j])
  }

  /** Moving the head of a queue to the end of an output keeps their concatenation. */
  lemma MoveHead<T>(a: seq<T>, q: seq<T>)
    requires q != []
    ensures a + [q[0]] + q[1..] == a + q
  {
    assert q == [q[0]] + q[1..];
  }

  lemma SortedTail<T>(s: seq<T>, key: T -> int)
    requires SortedBy(s, key) && s != []
    ensures SortedBy(s[1..], key)
  {
    forall i, j | 0 <= i < j < |s| - 1 ensures key(s[1..][i]) <= key(s[1..][j]) {
      assert s[1..][i] == s[i + 1] && s[1..][j] == s[j + 1];
    }
  }

  /** Inserts `x` behind every element whose key is not larger than its own. */
  function InsertBy<T>(x: T, s: seq<T>, key: T -> int): (r: seq<T>)
    ensures |r| == |s| + 1
  {
    if s == [] then [x]
    else if key(Last(s)) <= key(x) then s + [x]
    else InsertBy(x, DropLast(s), key) + [Last(s)]
  }

  /** The stable sort of `s` by ascending `key`: what `s.sort((a, b) => key(a) - key(b))`
      returns under the stability that ECMAScript 2019 requires of `sort`. */
  function StableSortBy<T>(s: seq<T>, key: T -> int): (r: seq<T>)
    ensures |r| == |s|
  {
    if s == [] then [] else InsertBy(Last(s), StableSortBy(DropLast(s), key), key)
  }

  function HasKey<T>(key: T -> int, k: int): T -> bool {
    x => key(x) == k
  }

  lemma {:induction false} InsertByPerm<T>(x: T, s: seq<T>, key: T -> int)
    ensures multiset(InsertBy(x, s, key)) == multiset(s) + multiset{x}
    decreases |s|
  {
    if s != [] && key(Last(s)) > key(x) {
      InsertByPerm(x, DropLast(s), key);
      assert s == DropLast(s) + [Last(s)];
    }
  }

  lemma {:induction false} InsertBySorted<T>(x: T, s: seq<T>, key: T -> int)
    requires SortedBy(s, key)
    ensures SortedBy(InsertBy(x, s, key), key)
    decreases |s|
  {
    if s != [] && key(Last(s)) > key(x) {
      var p, l := DropLast(s), Last(s);
      assert SortedBy(p, key);
      InsertBySorted(x, p, key);
      InsertByPerm(x, p, key);
      var q := InsertBy(x, p, key);
      forall i | 0 <= i < |q| ensures key(q[i]) <= key(l) {
        assert q[i] in multiset(q);
        if q[i] != x {
          assert q[i] in multiset(p);
          var j :| 0 <= j < |p| && p[j] == q[i];
          assert s[j] == p[j] && s[|s| - 1] == l;
        }
      }
      assert InsertBy(x, s, key) == q + [l];
    }
  }

  lemma {:induction false} InsertByStable<T>(x: T, s: seq<T>, key: T -> int, k: int)
    ensures Filter(InsertBy(x, s, key), HasKey(key, k))
         == Filter(s, HasKey(key, k)) + (if key(x) == k then [x] else [])
    decreases |s|
  {
    if s == [] {
    } else if key(Last(s)) <= key(x) {
      assert DropLast(s + [x]) == s;
    } else {
      var p, l := DropLast(s), Last(s);
      InsertByStable(x, p, key, k);
      var q := InsertBy(x, p, key);
      assert DropLast(q + [l]) == q;
    }
  }

  /** A stable sort is a permutation of its input. */
  lemma {:induction false} StableSortPerm<T>(s: seq<T>, key: T -> int)
    ensures multiset(StableSortBy(s, key)) == multiset(s)
  {
    if s != [] {
      StableSortPerm(DropLast(s), key);
      InsertByPerm(Last(s), StableSortBy(DropLast(s), key), key);
      assert s == DropLast(s) + [Last(s)];
    }
  }

  /** The three facts that pin a stable sort down: the result is ordered by key, it is a
      permutation of the input, and the elements sharing any one key keep their input order. */
  lemma {:induction false} StableSortByProps<T>(s: seq<T>, key: T -> int)
    ensures SortedBy(StableSortBy(s, key), key)
    ensures multiset(StableSortBy(s, key)) == multiset(s)
    ensures |StableSortBy(s, key)| == |s|
    ensures forall k :: Filter(StableSortBy(s, key), HasKey(key, k)) == Filter(s, HasKey(key, k))
  {
    if s != [] {
      var p := DropLast(s);
      StableSortByProps(p, key);
      var t := StableSortBy(p, key);
      InsertBySorted(Last(s), t, key);
      InsertByPerm(Last(s), t, key);
      var r := StableSortBy(s, key);
      assert r == InsertBy(Last(s), t, key);
      assert s == p + [Last(s)];
      forall k ensures Filter(r, HasKey(key, k)) == Filter(s, HasKey(key, k)) {
        InsertByStable(Last(s), t, key, k);
        assert Filter(s, HasKey(key, k)) == Filter(p, HasKey(key, k)) + (if key(Last(s)) == k then [Last(s)] else []);
      }
      assert |r| == |multiset(r)|;
    }
  }

  /** Sorting an already sorted sequence changes nothing: repeating the in-place sort, as
      every call of the source's wrapper chain does, is harmless. */
  lemma {:induction false} StableSortSorted<T>(s: seq<T>, key: T -> int)
    requires SortedBy(s, key)
    ensures StableSortBy(s, key) == s
  {
    if s != [] {
      var p := DropLast(s);
      assert SortedBy(p, key);
      StableSortSorted(p, key);
      assert s == p + [Last(s)];
      if p != [] {
        assert key(Last(p)) <= key(Last(s));
      }
    }
  }
}
