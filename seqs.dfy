/** List operations behind the screens' `filter`, `includes`/`filter`/spread toggles,
    `Math.max(...xs)` and `Array.prototype.sort`. */
module Seqs {

  /** `r` is `s` with some elements left out, the rest in their original order. */
  ghost predicate Subsequence<T>(r: seq<T>, s: seq<T>)
    decreases |s|
  {
    if |r| == 0 then true
    else if |s| == 0 then false
    else (r[0] == s[0] && Subsequence(r[1..], s[1..])) || Subsequence(r, s[1..])
  }

  /** Every sequence is a subsequence of itself. */
  lemma {:induction false} SubsequenceReflexive<T>(s: seq<T>)
    ensures Subsequence(s, s)
    decreases |s|
  {
    if |s| > 0 { SubsequenceReflexive(s[1..]); }
  }

  /** `s.filter(p)` */
  function Filter<T(!new)>(p: T -> bool, s: seq<T>): (r: seq<T>)
    ensures |r| <= |s|
    ensures forall x :: x in r <==> x in s && p(x)
    ensures forall i :: 0 <= i < |r| ==> p(r[i])
    ensures multiset(r) <= multiset(s)
    ensures Subsequence(r, s)
    decreases |s|
  {
    if |s| == 0 then []
    else
      var rest := Filter(p, s[1..]);
      assert s == [s[0]] + s[1..];
      if p(s[0]) then
        assert ([s[0]] + rest)[1..] == rest;
        [s[0]] + rest
      else
        rest
  }

  /** A filter whose predicate holds everywhere keeps the whole list. */
  lemma {:induction false} FilterKeepsAll<T(!new)>(p: T -> bool, s: seq<T>)
    requires forall i :: 0 <= i < |s| ==> p(s[i])
    ensures Filter(p, s) == s
    decreases |s|
  {
    if |s| > 0 {
      FilterKeepsAll(p, s[1..]);
      assert s == [s[0]] + s[1..];
    }
  }

  /** A filter whose predicate holds nowhere keeps nothing. */
  lemma {:induction false} FilterKeepsNone<T(!new)>(p: T -> bool, s: seq<T>)
    requires forall i :: 0 <= i < |s| ==> !p(s[i])
    ensures Filter(p, s) == []
    decreases |s|
  {
    if |s| > 0 { FilterKeepsNone(p, s[1..]); }
  }

  /** Filtering a concatenation filters each part. */
  lemma {:induction false} FilterAppend<T(!new)>(p: T -> bool, s: seq<T>, t: seq<T>)
    ensures Filter(p, s + t) == Filter(p, s) + Filter(p, t)
    decreases |s|
  {
    if |s| > 0 {
      assert (s + t)[1..] == s[1..] + t;
      FilterAppend(p, s[1..], t);
    } else {
      assert s + t == t;
    }
  }

  /** A filter that rejects some element of the list shortens it. */
  lemma {:induction false} FilterDropsOne<T(!new)>(p: T -> bool, s: seq<T>, x: T)
    requires x in s && !p(x)
    ensures |Filter(p, s)| < |s|
    decreases |s|
  {
    if s[0] != x {
      FilterDropsOne(p, s[1..], x);
    }
  }

  /** No element occurs twice. */
  predicate NoDuplicates<T(==)>(s: seq<T>) {
    forall i, j :: 0 <= i < j < |s| ==> s[i] != s[j]
  }

  /** The type toggle of the filter modal and the campaign forms:
      `prev.includes(x) ? prev.filter(t => t !== x) : [...prev, x]`. */
  function Toggle<T(==,!new)>(s: seq<T>, x: T): (r: seq<T>)
    ensures x in r <==> x !in s
    ensures forall y :: y != x ==> (y in r <==> y in s)
    ensures x in s ==> Subsequence(r, s) && |r| < |s|
    ensures x !in s ==> r == s + [x]
  {
    if x in s then
      var r := Filter(y => y != x, s);
      FilterDropsOne(y => y != x, s, x);
      r
    else s + [x]
  }

  /** Toggling an absent type and then toggling it again restores the selection. */
  lemma ToggleTwiceRestores<T(!new)>(s: seq<T>, x: T)
    requires x !in s
    ensures Toggle(Toggle(s, x), x) == s
  {
    var p := (y: T) => y != x;
    FilterAppend(p, s, [x]);
    FilterKeepsAll(p, s);
    assert Filter(p, [x]) == [];
  }

  /** Toggling never introduces a duplicate. */
  lemma ToggleKeepsNoDuplicates<T(!new)>(s: seq<T>, x: T)
    requires NoDuplicates(s)
    ensures NoDuplicates(Toggle(s, x))
  {
    if x in s {
      FilterOfNoDuplicates(y => y != x, s);
    }
  }

  /** Filtering a duplicate-free list leaves it duplicate-free. */
  lemma {:induction false} FilterOfNoDuplicates<T(!new)>(p: T -> bool, s: seq<T>)
    requires NoDuplicates(s)
    ensures NoDuplicates(Filter(p, s))
    decreases |s|
  {
    if |s| > 0 {
      FilterOfNoDuplicates(p, s[1..]);
      var rest := Filter(p, s[1..]);
      assert s[0] !in s[1..];
      assert s[0] !in rest;
    }
  }

  /** `Math.max(...xs)` for a non-empty list. */
  function MaxOf(xs: seq<real>): (m: real)
    requires |xs| > 0
    ensures m in xs
    ensures forall i :: 0 <= i < |xs| ==> xs[i] <= m
    decreases |xs|
  {
    if |xs| == 1 then xs[0]
    else
      var rest := MaxOf(xs[1..]);
      assert forall i :: 1 <= i < |xs| ==> xs[i] == xs[1..][i - 1];
      if xs[0] >= rest then xs[0] else rest
  }

  /** `xs` is in ascending order of `key`. */
  ghost predicate SortedBy<T>(xs: seq<T>, key: T -> real) {
    forall i, j :: 0 <= i < j < |xs| ==> key(xs[i]) <= key(xs[j])
  }

  /** The elements of `xs` whose key is `k`, in their order in `xs`. */
  function WithKey<T(!new)>(xs: seq<T>, key: T -> real, k: real): seq<T> {
    Filter(x => key(x) == k, xs)
  }

  /** `WithKey` of a list with a given head. */
  lemma WithKeyCons<T(!new)>(a: T, s: seq<T>, key: T -> real)
    ensures forall k :: WithKey([a] + s, key, k) == (if key(a) == k then [a] else []) + WithKey(s, key, k)
  {
    assert ([a] + s)[1..] == s;
  }

  /** Places `x` before the first element of a sorted list whose key is not below its own,
      so `x` comes ahead of the elements with an equal key. */
  function Insert<T(!new)>(x: T, xs: seq<T>, key: T -> real): (r: seq<T>)
    requires SortedBy(xs, key)
    ensures SortedBy(r, key)
    ensures multiset(r) == multiset(xs) + multiset{x}
    decreases |xs|
  {
    if |xs| == 0 then [x]
    else if key(x) <= key(xs[0]) then [x] + xs
    else
      var rest := Insert(x, xs[1..], key);
      assert xs == [xs[0]] + xs[1..];
      assert forall i :: 0 <= i < |rest| ==> key(xs[0]) <= key(rest[i]) by {
        forall i | 0 <= i < |rest| ensures key(xs[0]) <= key(rest[i]) {
          assert rest[i] in multiset(rest);
          assert rest[i] == x || rest[i] in xs[1..];
        }
      }
      [xs[0]] + rest
  }

  /** Inserting `x` adds it in front of the elements with its key and leaves every other key's run as it was. */
  lemma {:induction false} InsertKeepsTies<T(!new)>(x: T, xs: seq<T>, key: T -> real)
    requires SortedBy(xs, key)
    ensures forall k :: WithKey(Insert(x, xs, key), key, k) == if key(x) == k then [x] + WithKey(xs, key, k) else WithKey(xs, key, k)
    decreases |xs|
  {
    if |xs| == 0 {
      WithKeyCons(x, [], key);
    } else if key(x) <= key(xs[0]) {
      WithKeyCons(x, xs, key);
    } else {
      var rest := Insert(x, xs[1..], key);
      assert Insert(x, xs, key) == [xs[0]] + rest;
      InsertKeepsTies(x, xs[1..], key);
      WithKeyCons(xs[0], rest, key);
      WithKeyCons(xs[0], xs[1..], key);
      assert xs == [xs[0]] + xs[1..];
    }
  }

  /** `xs.sort((a, b) => key(a) - key(b))`: ascending by key, a permutation of the input, and
      stable, as `Array.prototype.sort` is required to be: elements with equal keys keep their order. */
  function SortBy<T(!new)>(xs: seq<T>, key: T -> real): (r: seq<T>)
    ensures SortedBy(r, key)
    ensures multiset(r) == multiset(xs)
    ensures |r| == |xs|
    ensures forall k :: WithKey(r, key, k) == WithKey(xs, key, k)
    decreases |xs|
  {
    if |xs| == 0 then []
    else
      assert xs == [xs[0]] + xs[1..];
      WithKeyCons(xs[0], xs[1..], key);
      InsertKeepsTies(xs[0], SortBy(xs[1..], key), key);
      var r := Insert(xs[0], SortBy(xs[1..], key), key);
      assert |r| == |multiset(r)| == |multiset(xs)| == |xs|;
      r
  }
}
