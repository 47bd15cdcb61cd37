/** Small generic helpers shared by the model: optional and failing results,
    a stable insertion sort by a real-valued key, and a ghost choice of an
    order for a finite set (the order in which a database yields rows that a
    query does not sort). */
module Collections {

  datatype Option<T> = None | Some(value: T) {
    function GetOr(default: T): T {
      match this
      case Some(v) => v
      case None => default
    }
  }

  datatype Result<T, E> = Success(value: T) | Failure(error: E)

  datatype Outcome<E> = Pass | Fail(error: E)

  function Min(a: int, b: int): int {
    if a <= b then a else b
  }

  /** The first `n` elements of `xs`, or all of them when there are fewer
      (Cypher's `LIMIT n`). */
  function Take<T>(xs: seq<T>, n: nat): (r: seq<T>)
    ensures |r| == Min(n, |xs|)
    ensures r == xs[..|r|]
  {
    if |xs| <= n then xs else xs[..n]
  }

  predicate SortedBy<T>(xs: seq<T>, key: T -> real) {
    forall i, j :: 0 <= i < j < |xs| ==> key(xs[i]) <= key(xs[j])
  }

  /** Cutting a sorted sequence after its first `n` elements leaves every
      element of the first part at most every element of the second. */
  lemma TakeSplit<T>(xs: seq<T>, key: T -> real, n: nat)
    requires SortedBy(xs, key)
    ensures Take(xs, n) + xs[|Take(xs, n)|..] == xs
    ensures forall i, j :: 0 <= i < |Take(xs, n)| && 0 <= j < |xs[|Take(xs, n)|..]| ==>
      key(Take(xs, n)[i]) <= key(xs[|Take(xs, n)|..][j])
  {
    var r := Take(xs, n);
    forall i, j | 0 <= i < |r| && 0 <= j < |xs[|r|..]| ensures key(r[i]) <= key(xs[|r|..][j]) {
      assert r[i] == xs[i] && xs[|r|..][j] == xs[|r| + j];
    }
  }

  /** Inserts `x` before the first element whose key is not smaller. */
  function Insert<T>(x: T, xs: seq<T>, key: T -> real): (r: seq<T>)
    requires SortedBy(xs, key)
    ensures SortedBy(r, key)
    ensures multiset(r) == multiset(xs) + multiset{x}
    ensures |r| == |xs| + 1
  {
    if xs == [] then [x]
    else if key(x) <= key(xs[0]) then [x] + xs
    else
      var rest := Insert(x, xs[1..], key);
      InsertHeadBound(x, xs, key, rest);
      assert xs == [xs[0]] + xs[1..];
      [xs[0]] + rest
  }

  lemma InsertHeadBound<T>(x: T, xs: seq<T>, key: T -> real, rest: seq<T>)
    requires xs != [] && SortedBy(xs, key) && key(xs[0]) < key(x)
    requires multiset(rest) == multiset(xs[1..]) + multiset{x}
    ensures forall i :: 0 <= i < |rest| ==> key(xs[0]) <= key(rest[i])
  {
    forall i | 0 <= i < |rest| ensures key(xs[0]) <= key(rest[i]) {
      assert rest[i] in multiset(rest);
      if rest[i] != x {
        assert rest[i] in multiset(xs[1..]);
        var j :| 0 <= j < |xs[1..]| && xs[1..][j] == rest[i];
        assert xs[j + 1] == rest[i];
      }
    }
  }

  /** A permutation of `xs` in ascending order of `key`. */
  function SortBy<T>(xs: seq<T>, key: T -> real): (r: seq<T>)
    ensures SortedBy(r, key)
    ensures multiset(r) == multiset(xs)
    ensures |r| == |xs|
  {
    if xs == [] then []
    else
      assert xs == [xs[0]] + xs[1..];
      Insert(xs[0], SortBy(xs[1..], key), key)
  }

  /** The elements of `xs` that `keep` accepts, in order (a comprehension
      with a condition, or a `WHERE`). */
  function Filter<T>(xs: seq<T>, keep: T -> bool): (r: seq<T>)
    ensures forall i :: 0 <= i < |r| ==> keep(r[i]) && r[i] in xs
    ensures forall i :: 0 <= i < |xs| && keep(xs[i]) ==> xs[i] in r
    ensures multiset(r) <= multiset(xs)
    decreases |xs|
  {
    if xs == [] then []
    else
      var rest := Filter(xs[1..], keep);
      assert xs == [xs[0]] + xs[1..];
      if keep(xs[0]) then [xs[0]] + rest else rest
  }

  /** The filter keeps each accepted element as often as it occurs, and
      nothing else. */
  lemma {:induction false} FilterCount<T>(xs: seq<T>, keep: T -> bool, x: T)
    ensures multiset(Filter(xs, keep))[x] == if keep(x) then multiset(xs)[x] else 0
    decreases |xs|
  {
    if xs != [] {
      var head, tail := xs[0], xs[1..];
      FilterCount(tail, keep, x);
      assert xs == [head] + tail;
      var h := if head == x then 1 else 0;
      assert multiset(xs)[x] == h + multiset(tail)[x];
      if keep(head) {
        assert multiset(Filter(xs, keep))[x] == h + multiset(Filter(tail, keep))[x];
      } else {
        assert Filter(xs, keep) == Filter(tail, keep);
      }
    }
  }

  /** A filter that accepts every element keeps the sequence. */
  lemma {:induction false} FilterAll<T>(xs: seq<T>, keep: T -> bool)
    requires forall i :: 0 <= i < |xs| ==> keep(xs[i])
    ensures Filter(xs, keep) == xs
    decreases |xs|
  {
    if xs != [] {
      FilterAll(xs[1..], keep);
    }
  }

  /** Some enumeration of a finite set, each element exactly once. */
  ghost function SeqOfSet<T>(s: set<T>): (r: seq<T>)
    ensures |r| == |s|
    ensures multiset(r) == multiset(s)
    ensures forall i, j :: 0 <= i < j < |r| ==> r[i] != r[j]
    ensures forall i :: 0 <= i < |r| ==> r[i] in s
    decreases s
  {
    if s == {} then []
    else
      var x :| x in s;
      var rest := SeqOfSet(s - {x});
      assert s == (s - {x}) + {x};
      assert multiset(s) == multiset(s - {x}) + multiset{x};
      var r := [x] + rest;
      assert forall j :: 0 < j < |r| ==> r[j] == rest[j - 1];
      r
  }

  /** `d` followed by the elements of `ys` not already there, each once, in
      the order of their first occurrence: the keys of a dict whose keys
      were `d` after the keys `ys` are assigned in order. */
  function AddNew<T(==)>(d: seq<T>, ys: seq<T>): (r: seq<T>)
    ensures |d| <= |r| && r[..|d|] == d
    ensures (forall i, j :: 0 <= i < j < |d| ==> d[i] != d[j]) ==> forall i, j :: 0 <= i < j < |r| ==> r[i] != r[j]
    ensures forall i :: 0 <= i < |ys| ==> ys[i] in r
    ensures forall i :: 0 <= i < |r| ==> r[i] in d || r[i] in ys
    decreases |ys|
  {
    if ys == [] then d
    else
      var init := ys[..|ys| - 1];
      var a := AddNew(d, init);
      assert forall i :: 0 <= i < |ys| - 1 ==> ys[i] == init[i];
      if ys[|ys| - 1] in a then a else a + [ys[|ys| - 1]]
  }

  /** Assigning the keys `xs + ys` is assigning `xs`, then `ys`. */
  lemma {:induction false} AddNewAppend<T>(d: seq<T>, xs: seq<T>, ys: seq<T>)
    ensures AddNew(d, xs + ys) == AddNew(AddNew(d, xs), ys)
    decreases |ys|
  {
    if ys == [] {
      assert xs + ys == xs;
    } else {
      assert (xs + ys)[..|xs + ys| - 1] == xs + ys[..|ys| - 1];
      AddNewAppend(d, xs, ys[..|ys| - 1]);
    }
  }

  /** The elements of `xs` without repeats, each at the place of its first
      occurrence. */
  function Dedup<T(==)>(xs: seq<T>): (r: seq<T>)
    ensures forall i, j :: 0 <= i < j < |r| ==> r[i] != r[j]
    ensures forall i :: 0 <= i < |r| ==> r[i] in xs
    ensures forall i :: 0 <= i < |xs| ==> xs[i] in r
  {
    AddNew([], xs)
  }

  /** No element occurs twice. */
  ghost predicate Distinct<T>(xs: seq<T>) {
    forall i, j :: 0 <= i < j < |xs| ==> xs[i] != xs[j]
  }

  /** Dropping the last element keeps the rest distinct, and the last
      element is not among them. */
  lemma DistinctInit<T>(xs: seq<T>)
    requires xs != [] && Distinct(xs)
    ensures Distinct(xs[..|xs| - 1]) && xs[|xs| - 1] !in xs[..|xs| - 1]
  {
  }

  lemma {:induction false} DistinctCount<T>(xs: seq<T>, x: T)
    requires Distinct(xs)
    ensures multiset(xs)[x] <= 1
    decreases |xs|
  {
    if xs != [] {
      assert xs == [xs[0]] + xs[1..];
      DistinctCount(xs[1..], x);
      assert forall j :: 0 <= j < |xs[1..]| ==> xs[1..][j] != xs[0];
    }
  }

  /** Adding an element to a finite set adds one unless it was there. */
  lemma AddOneCard<T>(a: set<T>, b: set<T>, x: T)
    requires b == a + {x}
    ensures |b| == |a| + (if x in a then 0 else 1)
  {
    if x in a {
      assert b == a;
    }
  }

  /** A permutation of a sequence without repeats has none. */
  lemma PermutationDistinct<T>(xs: seq<T>, ys: seq<T>)
    requires Distinct(xs) && multiset(xs) == multiset(ys)
    ensures Distinct(ys)
  {
    forall i, j | 0 <= i < j < |ys| ensures ys[i] != ys[j] {
      DistinctCount(xs, ys[i]);
      assert ys == ys[..j] + ys[j..];
      assert ys[..j][i] == ys[i] && ys[j..][0] == ys[j];
      assert multiset(ys) == multiset(ys[..j]) + multiset(ys[j..]);
    }
  }

  /** The pairs of `p` with their two components exchanged. */
  function Swapped<A(==,!new), B(==,!new)>(p: set<(A, B)>): (r: set<(B, A)>)
    ensures forall x :: x in r <==> (x.1, x.0) in p
  {
    set x | x in p :: (x.1, x.0)
  }

  lemma {:induction false} SwappedCard<A(!new), B(!new)>(p: set<(A, B)>)
    ensures |Swapped(p)| == |p|
    decreases p
  {
    if p != {} {
      var x :| x in p;
      SwappedCard(p - {x});
      assert Swapped(p) == Swapped(p - {x}) + {(x.1, x.0)};
    }
  }

  lemma {:induction false} SubsetCard<T>(a: set<T>, b: set<T>)
    requires a <= b
    ensures |a| <= |b|
    decreases a
  {
    if a != {} {
      var x :| x in a;
      SubsetCard(a - {x}, b - {x});
    }
  }

  /** Every pair of an element of `xs` and an element of `ys`. */
  function Product<A(==,!new), B(==,!new)>(xs: set<A>, ys: set<B>): (r: set<(A, B)>)
    ensures forall p :: p in r <==> p.0 in xs && p.1 in ys
  {
    set a, b | a in xs && b in ys :: (a, b)
  }

  /** There are `|xs| * |ys|` such pairs. */
  lemma {:induction false} ProductCard<A(!new), B(!new)>(xs: set<A>, ys: set<B>)
    ensures |Product(xs, ys)| == |xs| * |ys|
    decreases xs
  {
    if xs == {} {
      assert Product(xs, ys) == {};
    } else {
      var a :| a in xs;
      var rest, row := Product(xs - {a}, ys), Product({a}, ys);
      ProductCard(xs - {a}, ys);
      PairsWithCard(a, ys);
      assert Product(xs, ys) == rest + row;
      assert rest * row == {};
      assert |rest + row| == |rest| + |row|;
      assert |xs - {a}| == |xs| - 1;
      MulSucc(|xs| - 1, |ys|);
    }
  }

  lemma MulSucc(m: nat, n: nat)
    ensures (m + 1) * n == m * n + n
  {
  }

  lemma {:induction false} PairsWithCard<A(!new), B(!new)>(a: A, ys: set<B>)
    ensures |Product({a}, ys)| == |ys|
    decreases ys
  {
    if ys == {} {
      assert Product({a}, ys) == {};
    } else {
      var b :| b in ys;
      PairsWithCard(a, ys - {b});
      assert Product({a}, ys) == Product({a}, ys - {b}) + {(a, b)};
    }
  }

  /** The first `n` elements of `s` in ascending order of `key`, ties in
      some order; an `ORDER BY key LIMIT n` over the rows `s`. */
  ghost function TopBy<T>(s: set<T>, key: T -> real, n: nat): (r: seq<T>)
    ensures |r| == Min(n, |s|)
    ensures SortedBy(r, key)
    ensures forall i :: 0 <= i < |r| ==> r[i] in s
    ensures Distinct(r)
  {
    var all := SeqOfSet(s);
    var sorted := SortBy(all, key);
    PermutationDistinct(all, sorted);
    TakeOfPermutation(all, sorted, key, n);
    Take(sorted, n)
  }

  /** The first `n` elements of a sorted permutation of `all`. */
  lemma TakeOfPermutation<T>(all: seq<T>, sorted: seq<T>, key: T -> real, n: nat)
    requires multiset(sorted) == multiset(all)
    requires SortedBy(sorted, key) && Distinct(sorted)
    ensures SortedBy(Take(sorted, n), key) && Distinct(Take(sorted, n))
    ensures forall i :: 0 <= i < |Take(sorted, n)| ==> Take(sorted, n)[i] in multiset(all)
  {
    var r := Take(sorted, n);
    assert forall i :: 0 <= i < |r| ==> r[i] == sorted[i];
    forall i | 0 <= i < |r| ensures r[i] in multiset(all) {
      assert sorted[i] in multiset(sorted);
    }
  }

  /** An element `LIMIT n` cuts has a key no smaller than any kept. */
  lemma TopByCut<T>(s: set<T>, key: T -> real, n: nat, x: T)
    requires x in s && x !in TopBy(s, key, n)
    ensures |s| > n
    ensures forall i :: 0 <= i < |TopBy(s, key, n)| ==> key(TopBy(s, key, n)[i]) <= key(x)
  {
    var all := SeqOfSet(s);
    var sorted := SortBy(all, key);
    var r := TopBy(s, key, n);
    assert r == Take(sorted, n);
    TakeSplit(sorted, key, n);
    var rest := sorted[|r|..];
    assert multiset(sorted) == multiset(r) + multiset(rest);
    assert x in multiset(all);
    assert x in multiset(rest);
    var j :| 0 <= j < |rest| && rest[j] == x;
  }

  /** Without a cut every element is listed. */
  lemma TopByAll<T>(s: set<T>, key: T -> real, x: T)
    requires x in s
    ensures x in TopBy(s, key, |s|)
  {
    var all := SeqOfSet(s);
    var sorted := SortBy(all, key);
    assert TopBy(s, key, |s|) == sorted;
    assert x in multiset(all);
    assert x in multiset(sorted);
  }
}
