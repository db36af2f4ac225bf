/**
 * The array operations the popup uses, on sequences: `filter`, a
 * filter-with-a-`Set` that keeps the first element of each key, and a stable
 * `sort` by a rank.
 */
module Sequences {

  // ---------------------------------------------------------------- order

  /** `a` is an order-preserving subsequence of `b`. */
  predicate IsSubseq<T(==)>(a: seq<T>, b: seq<T>)
    decreases |b|
  {
    if a == [] then true
    else if b == [] then false
    else if a[0] == b[0] then IsSubseq(a[1..], b[1..])
    else IsSubseq(a, b[1..])
  }

  lemma {:induction false} SubseqRefl<T>(a: seq<T>)
    ensures IsSubseq(a, a)
    decreases |a|
  {
    if a != [] {
      SubseqRefl(a[1..]);
    }
  }

  // ---------------------------------------------------------------- filter

  /** `xs.filter(p)` */
  function Filter<T>(xs: seq<T>, p: T -> bool): (r: seq<T>)
    ensures |r| <= |xs|
    ensures forall i :: 0 <= i < |r| ==> p(r[i])
  {
    if xs == [] then []
    else if p(xs[0]) then [xs[0]] + Filter(xs[1..], p)
    else Filter(xs[1..], p)
  }

  /** `filter` keeps exactly the occurrences that satisfy `p`, in their order. */
  lemma {:induction false} FilterExact<T>(xs: seq<T>, p: T -> bool)
    ensures forall x :: multiset(Filter(xs, p))[x] == if p(x) then multiset(xs)[x] else 0
    ensures IsSubseq(Filter(xs, p), xs)
  {
    if xs != [] {
      FilterExact(xs[1..], p);
      assert xs == [xs[0]] + xs[1..];
      if p(xs[0]) {
        assert Filter(xs, p)[1..] == Filter(xs[1..], p);
      }
    }
  }

  lemma {:induction false} FilterAppend<T>(a: seq<T>, b: seq<T>, p: T -> bool)
    ensures Filter(a + b, p) == Filter(a, p) + Filter(b, p)
  {
    if a == [] {
      assert a + b == b;
    } else {
      assert (a + b)[1..] == a[1..] + b;
      FilterAppend(a[1..], b, p);
    }
  }

  lemma {:induction false} FilterAll<T>(xs: seq<T>, p: T -> bool)
    requires forall i :: 0 <= i < |xs| ==> p(xs[i])
    ensures Filter(xs, p) == xs
  {
    if xs != [] {
      FilterAll(xs[1..], p);
    }
  }

  // ---------------------------------------------------------------- keep the first of each key

  /** The keys of the elements of `xs`. */
  function Keys<T, K>(xs: seq<T>, key: T -> K): (r: set<K>)
    ensures forall i :: 0 <= i < |xs| ==> key(xs[i]) in r
  {
    set i | 0 <= i < |xs| :: key(xs[i])
  }

  /** The index of the first element of `xs` with key `k`, or `|xs|` if there is none. */
  function IndexOfKey<T, K(==)>(xs: seq<T>, key: T -> K, k: K): (r: nat)
    ensures r <= |xs|
    ensures forall i :: 0 <= i < r ==> key(xs[i]) != k
    ensures r < |xs| ==> key(xs[r]) == k
  {
    if xs == [] then 0
    else if key(xs[0]) == k then 0
    else 1 + IndexOfKey(xs[1..], key, k)
  }

  /**
   * `xs.filter(x => { if (seen.has(key(x))) return false; seen.add(key(x)); return true; })`,
   * with `seen` holding the keys met so far.
   */
  function Dedupe<T, K(==)>(xs: seq<T>, key: T -> K, seen: set<K>): (r: seq<T>)
    ensures |r| <= |xs|
  {
    if xs == [] then []
    else if key(xs[0]) in seen then Dedupe(xs[1..], key, seen)
    else [xs[0]] + Dedupe(xs[1..], key, seen + {key(xs[0])})
  }

  /** No two elements share a key, and none has a key in `seen`. */
  ghost predicate KeysDistinct<T, K>(xs: seq<T>, key: T -> K, seen: set<K>)
  {
    (forall i, j :: 0 <= i < j < |xs| ==> key(xs[i]) != key(xs[j])) &&
    (forall i :: 0 <= i < |xs| ==> key(xs[i]) !in seen)
  }

  /** The survivors keep their order and have pairwise distinct, unseen keys. */
  lemma {:induction false} DedupeDistinct<T, K>(xs: seq<T>, key: T -> K, seen: set<K>)
    ensures IsSubseq(Dedupe(xs, key, seen), xs)
    ensures KeysDistinct(Dedupe(xs, key, seen), key, seen)
    ensures Keys(Dedupe(xs, key, seen), key) == Keys(xs, key) - seen
  {
    if xs != [] {
      var k := key(xs[0]);
      var tail := xs[1..];
      assert xs == [xs[0]] + tail;
      KeysCons(xs[0], tail, key);
      if k in seen {
        DedupeDistinct(tail, key, seen);
      } else {
        var rest := Dedupe(tail, key, seen + {k});
        DedupeDistinct(tail, key, seen + {k});
        var r := Dedupe(xs, key, seen);
        assert r == [xs[0]] + rest;
        assert forall i :: 0 < i < |r| ==> r[i] == rest[i - 1];
        KeysCons(xs[0], rest, key);
      }
    }
  }

  lemma KeysCons<T, K>(x: T, xs: seq<T>, key: T -> K)
    ensures Keys([x] + xs, key) == {key(x)} + Keys(xs, key)
  {
    var s := [x] + xs;
    forall y | y in Keys(s, key) ensures y == key(x) || y in Keys(xs, key) {
      var i :| 0 <= i < |s| && key(s[i]) == y;
      if i > 0 {
        assert s[i] == xs[i - 1];
      }
    }
    forall y | y in Keys(xs, key) ensures y in Keys(s, key) {
      var j :| 0 <= j < |xs| && key(xs[j]) == y;
      assert xs[j] == s[j + 1];
    }
    assert s[0] == x;
  }

  lemma KeysSnoc<T, K>(xs: seq<T>, x: T, key: T -> K)
    ensures Keys(xs + [x], key) == Keys(xs, key) + {key(x)}
  {
    var s := xs + [x];
    forall y | y in Keys(s, key) ensures y == key(x) || y in Keys(xs, key) {
      var i :| 0 <= i < |s| && key(s[i]) == y;
      if i < |xs| {
        assert s[i] == xs[i];
      }
    }
    forall y | y in Keys(xs, key) ensures y in Keys(s, key) {
      var j :| 0 <= j < |xs| && key(xs[j]) == y;
      assert xs[j] == s[j];
    }
    assert s[|xs|] == x;
  }

  /** Two elements of `all` share a `k1` key exactly when they share a `k2` key. */
  ghost predicate SameClasses<T, K1, K2>(all: seq<T>, k1: T -> K1, k2: T -> K2)
  {
    forall i, j :: 0 <= i < |all| && 0 <= j < |all| ==> (k1(all[i]) == k1(all[j]) <==> k2(all[i]) == k2(all[j]))
  }

  /** Under keys that group alike, the element at `n` was seen before under one key exactly when under the other. */
  lemma SeenAlike<T, K1, K2>(all: seq<T>, n: nat, k1: T -> K1, k2: T -> K2)
    requires n < |all| && SameClasses(all, k1, k2)
    ensures k1(all[n]) in Keys(all[..n], k1) <==> k2(all[n]) in Keys(all[..n], k2)
  {
    var before := all[..n];
    if k1(all[n]) in Keys(before, k1) {
      var i :| 0 <= i < n && k1(before[i]) == k1(all[n]);
      assert before[i] == all[i];
    }
    if k2(all[n]) in Keys(before, k2) {
      var i :| 0 <= i < n && k2(before[i]) == k2(all[n]);
      assert before[i] == all[i];
    }
  }

  /**
   * Two keys that group the elements alike keep the same survivors: with the
   * first `n` elements already passed, an element is dropped under one key
   * exactly when it is dropped under the other.
   */
  lemma {:induction false} DedupeSameClasses<T, K1, K2>(all: seq<T>, n: nat, k1: T -> K1, k2: T -> K2)
    requires n <= |all| && SameClasses(all, k1, k2)
    ensures Dedupe(all[n..], k1, Keys(all[..n], k1)) == Dedupe(all[n..], k2, Keys(all[..n], k2))
    decreases |all| - n
  {
    if n < |all| {
      SeenAlike(all, n, k1, k2);
      DedupeAlong(all, n, k1);
      DedupeAlong(all, n, k2);
      DedupeSameClasses(all, n + 1, k1, k2);
    }
  }

  /** One step of `Dedupe` along `all`, with the first `n` elements already passed. */
  lemma DedupeAlong<T, K>(all: seq<T>, n: nat, key: T -> K)
    requires n < |all|
    ensures Dedupe(all[n..], key, Keys(all[..n], key)) ==
      if key(all[n]) in Keys(all[..n], key) then Dedupe(all[n + 1..], key, Keys(all[..n + 1], key))
      else [all[n]] + Dedupe(all[n + 1..], key, Keys(all[..n + 1], key))
  {
    assert all[..n + 1] == all[..n] + [all[n]];
    KeysSnoc(all[..n], all[n], key);
    DedupeStep(all, n, key, Keys(all[..n], key));
    if key(all[n]) in Keys(all[..n], key) {
      assert Keys(all[..n + 1], key) == Keys(all[..n], key);
    }
  }

  /** Every survivor is the first element of its key in the input, and its key was not seen. */
  lemma {:induction false} DedupeFirst<T, K>(xs: seq<T>, key: T -> K, seen: set<K>)
    ensures forall i :: 0 <= i < |Dedupe(xs, key, seen)| ==>
      var x := Dedupe(xs, key, seen)[i];
      key(x) !in seen && IndexOfKey(xs, key, key(x)) < |xs| && x == xs[IndexOfKey(xs, key, key(x))]
  {
    if xs != [] {
      var k := key(xs[0]);
      var tail := xs[1..];
      var seen' := if k in seen then seen else seen + {k};
      DedupeFirst(tail, key, seen');
      var rest := Dedupe(tail, key, seen');
      var r := Dedupe(xs, key, seen);
      forall i | 0 <= i < |r|
        ensures key(r[i]) !in seen && IndexOfKey(xs, key, key(r[i])) < |xs| && r[i] == xs[IndexOfKey(xs, key, key(r[i]))]
      {
        if k !in seen && i == 0 {
          assert r[0] == xs[0];
        } else {
          var j := if k in seen then i else i - 1;
          assert r[i] == rest[j];
          assert key(r[i]) != k;
          assert IndexOfKey(xs, key, key(r[i])) == 1 + IndexOfKey(tail, key, key(r[i]));
        }
      }
    }
  }

  /** Input whose keys are already distinct and unseen passes unchanged. */
  lemma {:induction false} DedupeDistinctIsIdentity<T, K>(xs: seq<T>, key: T -> K, seen: set<K>)
    requires KeysDistinct(xs, key, seen)
    ensures Dedupe(xs, key, seen) == xs
  {
    if xs != [] {
      var k := key(xs[0]);
      assert KeysDistinct(xs[1..], key, seen + {k}) by {
        assert forall i :: 0 <= i < |xs[1..]| ==> xs[1..][i] == xs[i + 1];
      }
      DedupeDistinctIsIdentity(xs[1..], key, seen + {k});
    }
  }

  /** Keeping the first of each key twice is the same as once. */
  lemma DedupeIdempotent<T, K>(xs: seq<T>, key: T -> K)
    ensures Dedupe(Dedupe(xs, key, {}), key, {}) == Dedupe(xs, key, {})
  {
    DedupeDistinct(xs, key, {});
    DedupeDistinctIsIdentity(Dedupe(xs, key, {}), key, {});
  }

  /** Two elements: the second survives exactly when its key differs from the first's. */
  lemma DedupePair<T, K>(x: T, y: T, key: T -> K)
    ensures Dedupe([x, y], key, {}) == if key(x) == key(y) then [x] else [x, y]
  {
    assert [x, y][1..] == [y];
    assert [y][1..] == [];
  }

  /** Filtering one position of the input at a time, as the popup's loop does. */
  lemma DedupeStep<T, K>(xs: seq<T>, i: nat, key: T -> K, seen: set<K>)
    requires i < |xs|
    ensures Dedupe(xs[i..], key, seen) ==
      if key(xs[i]) in seen then Dedupe(xs[i + 1..], key, seen)
      else [xs[i]] + Dedupe(xs[i + 1..], key, seen + {key(xs[i])})
  {
    assert xs[i..][1..] == xs[i + 1..];
  }

  // ---------------------------------------------------------------- stable sort by rank

  /** `x` may stay before `y`: the comparator does not return a positive number. */
  predicate NoLater<T>(rank: T -> (int, int), x: T, y: T)
  {
    rank(x).0 < rank(y).0 || (rank(x).0 == rank(y).0 && rank(x).1 <= rank(y).1)
  }

  ghost predicate Sorted<T>(rank: T -> (int, int), xs: seq<T>)
  {
    forall i, j :: 0 <= i < j < |xs| ==> NoLater(rank, xs[i], xs[j])
  }

  /** Inserts `x` before the first element that it does not follow. */
  function Insert<T>(rank: T -> (int, int), x: T, s: seq<T>): (r: seq<T>)
    ensures |r| == |s| + 1
  {
    if s == [] || NoLater(rank, x, s[0]) then [x] + s
    else [s[0]] + Insert(rank, x, s[1..])
  }

  /** `xs.sort(cmp)` where `cmp(a, b)` compares `rank(a)` with `rank(b)`; stable. */
  function SortBy<T>(rank: T -> (int, int), xs: seq<T>): (r: seq<T>)
    ensures |r| == |xs|
  {
    if xs == [] then [] else Insert(rank, xs[0], SortBy(rank, xs[1..]))
  }

  lemma {:induction false} InsertSorted<T>(rank: T -> (int, int), x: T, s: seq<T>)
    requires Sorted(rank, s)
    ensures Sorted(rank, Insert(rank, x, s))
    ensures multiset(Insert(rank, x, s)) == multiset(s) + multiset{x}
  {
    InsertPermutes(rank, x, s);
    if s != [] && !NoLater(rank, x, s[0]) {
      var tail := Insert(rank, x, s[1..]);
      assert Sorted(rank, s[1..]) by {
        assert forall i :: 0 <= i < |s[1..]| ==> s[1..][i] == s[i + 1];
      }
      InsertSorted(rank, x, s[1..]);
      forall j | 0 <= j < |tail| ensures NoLater(rank, s[0], tail[j]) {
        assert tail[j] in multiset(tail);
        assert tail[j] in multiset(s[1..]) || tail[j] == x;
        if tail[j] != x {
          var t :| 0 <= t < |s[1..]| && s[1..][t] == tail[j];
          assert s[t + 1] == tail[j];
        }
      }
      ConsSorted(rank, s[0], tail);
    }
  }

  lemma {:induction false} InsertPermutes<T>(rank: T -> (int, int), x: T, s: seq<T>)
    ensures multiset(Insert(rank, x, s)) == multiset(s) + multiset{x}
  {
    if s != [] && !NoLater(rank, x, s[0]) {
      InsertPermutes(rank, x, s[1..]);
      assert s == [s[0]] + s[1..];
    }
  }

  lemma ConsSorted<T>(rank: T -> (int, int), a: T, tail: seq<T>)
    requires Sorted(rank, tail)
    requires forall j :: 0 <= j < |tail| ==> NoLater(rank, a, tail[j])
    ensures Sorted(rank, [a] + tail)
  {
    var r := [a] + tail;
    assert forall i :: 0 < i < |r| ==> r[i] == tail[i - 1];
  }

  /** The sort yields a sorted permutation of its input. */
  lemma {:induction false} SortSorted<T>(rank: T -> (int, int), xs: seq<T>)
    ensures Sorted(rank, SortBy(rank, xs))
    ensures multiset(SortBy(rank, xs)) == multiset(xs)
  {
    if xs != [] {
      SortSorted(rank, xs[1..]);
      InsertSorted(rank, xs[0], SortBy(rank, xs[1..]));
      assert xs == [xs[0]] + xs[1..];
    }
  }

  /** The elements of rank `c`, in order. */
  function OfRank<T>(rank: T -> (int, int), c: (int, int), xs: seq<T>): seq<T>
  {
    Filter(xs, (x: T) => rank(x) == c)
  }

  /** Insertion puts `x` ahead of every element of its own rank. */
  lemma {:induction false} InsertStable<T>(rank: T -> (int, int), x: T, s: seq<T>, c: (int, int))
    ensures OfRank(rank, c, Insert(rank, x, s)) == if rank(x) == c then [x] + OfRank(rank, c, s) else OfRank(rank, c, s)
  {
    var p := (y: T) => rank(y) == c;
    if s == [] || NoLater(rank, x, s[0]) {
      assert ([x] + s)[1..] == s;
    } else {
      InsertStable(rank, x, s[1..], c);
      assert ([s[0]] + Insert(rank, x, s[1..]))[1..] == Insert(rank, x, s[1..]);
      if rank(x) == c {
        assert !p(s[0]);
      }
    }
  }

  /** Stability: the elements of each rank keep their input order. */
  lemma {:induction false} SortStable<T>(rank: T -> (int, int), xs: seq<T>, c: (int, int))
    ensures OfRank(rank, c, SortBy(rank, xs)) == OfRank(rank, c, xs)
  {
    if xs != [] {
      SortStable(rank, xs[1..], c);
      InsertStable(rank, xs[0], SortBy(rank, xs[1..]), c);
    }
  }
}
