/** Array operations the pages use on lists: `filter`, the insertion-ordered
    `Set` (first-seen distinct elements), `slice(0, n)`, and the default
    `sort()` of an array of strings. */
module Lists {

  /** `xs.filter(keep)`: the kept elements, in their original order. */
  function Filter<T>(xs: seq<T>, keep: T -> bool): (r: seq<T>)
    ensures |r| <= |xs|
    ensures forall i :: 0 <= i < |r| ==> r[i] in xs && keep(r[i])
    ensures forall i :: 0 <= i < |xs| && keep(xs[i]) ==> xs[i] in r
  {
    if xs == [] then []
    else (if keep(xs[0]) then [xs[0]] else []) + Filter(xs[1..], keep)
  }

  /** Filtering a concatenation filters each part: what is kept keeps its
      relative order. */
  lemma {:induction false} FilterConcat<T>(a: seq<T>, b: seq<T>, keep: T -> bool)
    ensures Filter(a + b, keep) == Filter(a, keep) + Filter(b, keep)
    decreases |a|
  {
    if a != [] {
      assert (a + b)[0] == a[0];
      assert (a + b)[1..] == a[1..] + b;
      FilterConcat(a[1..], b, keep);
    } else {
      assert a + b == b;
    }
  }

  /** Every kept element occurs as often as before; the others are gone. */
  lemma {:induction false} FilterCount<T>(xs: seq<T>, keep: T -> bool, x: T)
    ensures multiset(Filter(xs, keep))[x] == if keep(x) then multiset(xs)[x] else 0
    decreases |xs|
  {
    if xs != [] {
      FilterCount(xs[1..], keep, x);
      var head := if keep(xs[0]) then [xs[0]] else [];
      assert Filter(xs, keep) == head + Filter(xs[1..], keep);
      assert multiset(Filter(xs, keep)) == multiset(head) + multiset(Filter(xs[1..], keep));
      assert xs == [xs[0]] + xs[1..];
      assert multiset(xs) == multiset([xs[0]]) + multiset(xs[1..]);
    }
  }

  /** A filter that rejects nothing changes nothing. */
  lemma {:induction false} FilterKeepsAll<T>(xs: seq<T>, keep: T -> bool)
    requires forall i :: 0 <= i < |xs| ==> keep(xs[i])
    ensures Filter(xs, keep) == xs
    decreases |xs|
  {
    if xs != [] {
      FilterKeepsAll(xs[1..], keep);
      assert [xs[0]] + xs[1..] == xs;
    }
  }

  predicate NoDuplicates<T(==)>(s: seq<T>) {
    forall i, j :: 0 <= i < j < |s| ==> s[i] != s[j]
  }

  /** The position of the first occurrence of `x`. */
  function IndexOf<T(==)>(xs: seq<T>, x: T): (k: nat)
    requires x in xs
    ensures k < |xs| && xs[k] == x
    ensures forall i :: 0 <= i < k ==> xs[i] != x
  {
    if xs[0] == x then 0 else 1 + IndexOf(xs[1..], x)
  }

  /** `Array.from(new Set(xs))`: each distinct element once, in the order of
      its first occurrence (a JavaScript Set iterates in insertion order). */
  function Distinct<T(==)>(xs: seq<T>): (r: seq<T>)
    ensures forall i :: 0 <= i < |r| ==> r[i] in xs
    ensures forall i :: 0 <= i < |xs| ==> xs[i] in r
    ensures NoDuplicates(r)
    ensures |r| <= |xs|
  {
    if xs == [] then []
    else
      var init := xs[..|xs| - 1];
      var last := xs[|xs| - 1];
      assert xs == init + [last];
      var d := Distinct(init);
      if last in init then d else d + [last]
  }

  lemma IndexOfPrefix<T>(init: seq<T>, last: T, x: T)
    requires x in init
    ensures IndexOf(init + [last], x) == IndexOf(init, x)
  {
    var k := IndexOf(init, x);
    var xs := init + [last];
    assert xs[k] == x;
    var m := IndexOf(xs, x);
    assert m <= k;
    assert xs[m] == init[m];
  }

  /** The distinct elements come in the order in which they are first seen. */
  lemma {:induction false} DistinctFirstSeen<T>(xs: seq<T>, i: nat, j: nat)
    requires i < j < |Distinct(xs)|
    ensures IndexOf(xs, Distinct(xs)[i]) < IndexOf(xs, Distinct(xs)[j])
    decreases |xs|
  {
    var init := xs[..|xs| - 1];
    var last := xs[|xs| - 1];
    assert xs == init + [last];
    var d := Distinct(init);
    var r := Distinct(xs);
    assert r[i] == d[i];
    IndexOfPrefix(init, last, d[i]);
    if j < |d| {
      assert r[j] == d[j];
      IndexOfPrefix(init, last, d[j]);
      DistinctFirstSeen(init, i, j);
    } else {
      assert r[j] == last && last !in init;
      assert xs[|init|] == last;
      assert forall k :: 0 <= k < |init| ==> xs[k] == init[k];
    }
  }

  /** `xs.slice(0, n)`. */
  function Take<T>(xs: seq<T>, n: nat): (r: seq<T>)
    ensures |r| <= n && |r| <= |xs|
    ensures |xs| >= n ==> |r| == n
    ensures r == xs[..|r|]
  {
    if |xs| <= n then xs else xs[..n]
  }

  /** String order of the default `sort()`: character by character, a proper
      prefix first. */
  predicate StrLeq(a: string, b: string) {
    if a == [] then true
    else if b == [] then false
    else if a[0] != b[0] then a[0] < b[0]
    else StrLeq(a[1..], b[1..])
  }

  lemma StrLeqTotal(a: string, b: string)
    ensures StrLeq(a, b) || StrLeq(b, a)
  {
  }

  lemma StrLeqAntisymmetric(a: string, b: string)
    requires StrLeq(a, b) && StrLeq(b, a)
    ensures a == b
  {
    if a != [] && b != [] {
      StrLeqAntisymmetric(a[1..], b[1..]);
      assert a == [a[0]] + a[1..];
      assert b == [b[0]] + b[1..];
    }
  }

  lemma StrLeqTransitive(a: string, b: string, c: string)
    requires StrLeq(a, b) && StrLeq(b, c)
    ensures StrLeq(a, c)
  {
  }

  predicate Sorted(s: seq<string>) {
    forall i, j :: 0 <= i < j < |s| ==> StrLeq(s[i], s[j])
  }

  predicate StrictlySorted(s: seq<string>) {
    forall i, j :: 0 <= i < j < |s| ==> StrLeq(s[i], s[j]) && s[i] != s[j]
  }

  /** Puts `x` in its place in a sorted list: after every element it does
      not come before. */
  function Insert(s: seq<string>, x: string): (r: seq<string>)
    ensures multiset(r) == multiset(s) + multiset{x}
  {
    if s == [] then [x]
    else if StrLeq(x, s[0]) then [x] + s
    else
      assert s == [s[0]] + s[1..];
      [s[0]] + Insert(s[1..], x)
  }

  /** An element before a sorted list it does not come after. */
  lemma SortedCons(a: string, rest: seq<string>)
    requires Sorted(rest)
    requires forall j :: 0 <= j < |rest| ==> StrLeq(a, rest[j])
    ensures Sorted([a] + rest)
  {
    var r := [a] + rest;
    assert forall j :: 0 < j < |r| ==> r[j] == rest[j - 1];
  }

  lemma StrictlySortedCons(a: string, rest: seq<string>)
    requires StrictlySorted(rest)
    requires forall j :: 0 <= j < |rest| ==> StrLeq(a, rest[j]) && a != rest[j]
    ensures StrictlySorted([a] + rest)
  {
    var r := [a] + rest;
    assert forall j :: 0 < j < |r| ==> r[j] == rest[j - 1];
  }

  /** An element of an insertion is the inserted one or one of the list's. */
  lemma InsertMember(s: seq<string>, x: string, y: string)
    requires y in Insert(s, x)
    ensures y == x || y in s
  {
    assert y in multiset(Insert(s, x));
  }

  lemma {:induction false} InsertSorted(s: seq<string>, x: string)
    requires Sorted(s)
    ensures Sorted(Insert(s, x))
    decreases |s|
  {
    if s == [] {
    } else if StrLeq(x, s[0]) {
      forall j | 0 <= j < |s|
        ensures StrLeq(x, s[j])
      {
        if j > 0 { StrLeqTransitive(x, s[0], s[j]); }
      }
      SortedCons(x, s);
    } else {
      var t := Insert(s[1..], x);
      InsertSorted(s[1..], x);
      StrLeqTotal(x, s[0]);
      forall j | 0 <= j < |t|
        ensures StrLeq(s[0], t[j])
      {
        InsertMember(s[1..], x, t[j]);
      }
      SortedCons(s[0], t);
    }
  }

  lemma {:induction false} InsertStrictlySorted(s: seq<string>, x: string)
    requires StrictlySorted(s) && x !in s
    ensures StrictlySorted(Insert(s, x))
    decreases |s|
  {
    if s == [] {
    } else if StrLeq(x, s[0]) {
      forall j | 0 <= j < |s|
        ensures StrLeq(x, s[j]) && x != s[j]
      {
        if j > 0 { StrLeqTransitive(x, s[0], s[j]); }
      }
      StrictlySortedCons(x, s);
    } else {
      var t := Insert(s[1..], x);
      InsertStrictlySorted(s[1..], x);
      StrLeqTotal(x, s[0]);
      forall j | 0 <= j < |t|
        ensures StrLeq(s[0], t[j]) && s[0] != t[j]
      {
        InsertMember(s[1..], x, t[j]);
      }
      StrictlySortedCons(s[0], t);
    }
  }

  /** `xs.sort()` on strings: a sorted permutation of the input. */
  function SortStrings(xs: seq<string>): (r: seq<string>)
    ensures multiset(r) == multiset(xs)
    ensures Sorted(r)
  {
    if xs == [] then []
    else
      assert xs == [xs[0]] + xs[1..];
      InsertSorted(SortStrings(xs[1..]), xs[0]);
      Insert(SortStrings(xs[1..]), xs[0])
  }

  /** Sorting a duplicate-free list gives a strictly increasing one. */
  lemma {:induction false} SortDistinct(xs: seq<string>)
    requires NoDuplicates(xs)
    ensures StrictlySorted(SortStrings(xs))
    decreases |xs|
  {
    if xs != [] {
      var rest := SortStrings(xs[1..]);
      SortDistinct(xs[1..]);
      assert xs[0] !in multiset(xs[1..]);
      assert xs[0] !in rest by {
        assert multiset(rest) == multiset(xs[1..]);
      }
      InsertStrictlySorted(rest, xs[0]);
    }
  }
}
