/** Sequence operations the client code uses through `Array.prototype` methods:
    `filter`, `filter(...).length`, `[...new Set(xs)]` and `sort`. */
module Seqs {
  import Text

  /** `s.filter(p)`. */
  function Filter<T(!new)>(s: seq<T>, p: T -> bool): (r: seq<T>)
    ensures |r| <= |s|
    ensures forall x :: x in r <==> x in s && p(x)
  {
    if s == [] then [] else (if p(s[0]) then [s[0]] else []) + Filter(s[1..], p)
  }

  /** `a` is `b` with some elements removed and the rest kept in order. */
  predicate IsSubsequence<T(==)>(a: seq<T>, b: seq<T>)
    decreases |b|
  {
    if a == [] then true
    else if b == [] then false
    else (a[0] == b[0] && IsSubsequence(a[1..], b[1..])) || IsSubsequence(a, b[1..])
  }

  lemma {:induction false} FilterIsSubsequence<T(!new)>(s: seq<T>, p: T -> bool)
    ensures IsSubsequence(Filter(s, p), s)
  {
    if s != [] {
      FilterIsSubsequence(s[1..], p);
      if p(s[0]) {
        assert Filter(s, p)[1..] == Filter(s[1..], p);
      } else {
        assert Filter(s, p) == Filter(s[1..], p);
      }
    }
  }

  /** Filtering keeps every copy of an element that meets the condition and none of the others. */
  lemma {:induction false} FilterMultiset<T(!new)>(s: seq<T>, p: T -> bool, x: T)
    ensures multiset(Filter(s, p))[x] == if p(x) then multiset(s)[x] else 0
  {
    if s != [] {
      FilterMultiset(s[1..], p, x);
      assert s == [s[0]] + s[1..];
    }
  }

  /** A subsequence stays one when both sequences gain the same last element, or only the
      longer one does. */
  lemma {:induction false} SubsequenceSnoc<T>(a: seq<T>, b: seq<T>, x: T)
    requires IsSubsequence(a, b)
    ensures IsSubsequence(a, b + [x]) && IsSubsequence(a + [x], b + [x])
    decreases |b|
  {
    if b == [] {
      assert a == [];
      assert ([] + [x])[1..] == [];
    } else {
      assert (b + [x])[1..] == b[1..] + [x];
      if a == [] {
        SubsequenceSnoc(a, b[1..], x);
        assert a + [x] == [x];
      } else {
        assert (a + [x])[1..] == a[1..] + [x];
        if a[0] == b[0] && IsSubsequence(a[1..], b[1..]) {
          SubsequenceSnoc(a[1..], b[1..], x);
        } else {
          SubsequenceSnoc(a, b[1..], x);
        }
      }
    }
  }

  /** The conjunction of two conditions. */
  function Both<T>(p: T -> bool, q: T -> bool): T -> bool {
    x => p(x) && q(x)
  }

  /** Filtering twice is filtering once by both conditions. */
  lemma {:induction false} FilterFilter<T(!new)>(s: seq<T>, p: T -> bool, q: T -> bool)
    ensures Filter(Filter(s, p), q) == Filter(s, Both(p, q))
  {
    if s != [] {
      FilterFilter(s[1..], p, q);
      assert Both(p, q)(s[0]) == (p(s[0]) && q(s[0]));
      assert Filter(s, Both(p, q)) == (if p(s[0]) && q(s[0]) then [s[0]] else []) + Filter(s[1..], Both(p, q));
      if p(s[0]) {
        var t := Filter(s, p);
        assert t == [s[0]] + Filter(s[1..], p);
        assert t[1..] == Filter(s[1..], p);
        assert Filter(t, q) == (if q(s[0]) then [s[0]] else []) + Filter(t[1..], q);
      } else {
        assert Filter(s, p) == Filter(s[1..], p);
      }
    }
  }

  /** A condition every element meets removes nothing. */
  lemma {:induction false} FilterAll<T(!new)>(s: seq<T>, p: T -> bool)
    requires forall x :: x in s ==> p(x)
    ensures Filter(s, p) == s
  {
    if s != [] {
      FilterAll(s[1..], p);
    }
  }

  /** Two conditions that agree on the elements of `s` select the same elements. */
  lemma {:induction false} FilterSameOn<T(!new)>(s: seq<T>, p: T -> bool, q: T -> bool)
    requires forall x :: x in s ==> p(x) == q(x)
    ensures Filter(s, p) == Filter(s, q)
  {
    if s != [] {
      FilterSameOn(s[1..], p, q);
    }
  }

  /** Filtering by `p` and then by `q` is filtering once by any condition that is their conjunction on `s`. */
  lemma FilterStep<T(!new)>(s: seq<T>, p: T -> bool, q: T -> bool, r: T -> bool)
    requires forall x :: x in s ==> r(x) == (p(x) && q(x))
    ensures Filter(Filter(s, p), q) == Filter(s, r)
  {
    FilterFilter(s, p, q);
    FilterSameOn(s, Both(p, q), r);
  }

  /** Filtering a concatenation filters each part. */
  lemma {:induction false} FilterConcat<T(!new)>(s: seq<T>, t: seq<T>, p: T -> bool)
    ensures Filter(s + t, p) == Filter(s, p) + Filter(t, p)
  {
    if s != [] {
      FilterConcat(s[1..], t, p);
      assert (s + t)[1..] == s[1..] + t;
    } else {
      assert s + t == t;
    }
  }

  /** `s.filter(p).length`. */
  function Count<T(!new)>(s: seq<T>, p: T -> bool): nat {
    |Filter(s, p)|
  }

  /** Three mutually exclusive conditions together count at most every element once,
      and exactly once when every element meets one of them. */
  lemma {:induction false} CountThree<T(!new)>(s: seq<T>, p: T -> bool, q: T -> bool, r: T -> bool)
    requires forall x :: x in s ==> !(p(x) && q(x)) && !(p(x) && r(x)) && !(q(x) && r(x))
    ensures Count(s, p) + Count(s, q) + Count(s, r) <= |s|
    ensures (forall x :: x in s ==> p(x) || q(x) || r(x)) <==> Count(s, p) + Count(s, q) + Count(s, r) == |s|
  {
    if s != [] {
      var t := s[1..];
      assert forall x :: x in t ==> x in s;
      CountThree(t, p, q, r);
      CountStep(s, p);
      CountStep(s, q);
      CountStep(s, r);
      assert s[0] in s;
      AllCons(s, (x: T) => p(x) || q(x) || r(x));
    }
  }

  /** Counting a non-empty sequence: its head, then its tail. */
  lemma CountStep<T(!new)>(s: seq<T>, p: T -> bool)
    requires s != []
    ensures Count(s, p) == (if p(s[0]) then 1 else 0) + Count(s[1..], p)
  {
  }

  /** Every element of a non-empty sequence meets `p` iff its head and every element of its
      tail do. */
  lemma AllCons<T>(s: seq<T>, p: T -> bool)
    requires s != []
    ensures (forall x :: x in s ==> p(x)) <==> p(s[0]) && forall x :: x in s[1..] ==> p(x)
  {
    assert s == [s[0]] + s[1..];
  }

  predicate Distinct<T(==)>(s: seq<T>) {
    forall i, j :: 0 <= i < j < |s| ==> s[i] != s[j]
  }

  /** `[...new Set(s)]`: each element of `s` once, in the order of `s`. */
  function Dedup<T(==,!new)>(s: seq<T>): (r: seq<T>)
    ensures forall x :: x in r <==> x in s
    ensures Distinct(r)
    ensures IsSubsequence(r, s)
  {
    if s == [] then []
    else
      var r := Dedup(s[..|s| - 1]);
      assert s == s[..|s| - 1] + [s[|s| - 1]];
      assert forall x :: x in s <==> x in s[..|s| - 1] || x == s[|s| - 1];
      SubsequenceSnoc(r, s[..|s| - 1], s[|s| - 1]);
      if s[|s| - 1] in r then r else r + [s[|s| - 1]]
  }

  /** Ordered by `key` under the default string order. */
  predicate SortedBy<T>(s: seq<T>, key: T -> string) {
    forall i, j :: 0 <= i < j < |s| ==> Text.LessEq(key(s[i]), key(s[j]))
  }

  /** Places `x` after every element whose key does not exceed its own. */
  function Insert<T(!new)>(x: T, s: seq<T>, key: T -> string): (r: seq<T>)
    requires SortedBy(s, key)
    ensures SortedBy(r, key)
    ensures multiset(r) == multiset(s) + multiset{x}
    ensures forall y :: y in r <==> y in s || y == x
  {
    if s == [] then [x]
    else if Text.LessEq(key(x), key(s[0])) && key(x) != key(s[0]) then
      forall z | z in s ensures Text.LessEq(key(x), key(z)) {
        var k :| 0 <= k < |s| && s[k] == z;
        if k > 0 { Text.LessEqTransitive(key(x), key(s[0]), key(z)); }
      }
      SortedCons(x, s, key);
      [x] + s
    else
      assert SortedBy(s[1..], key);
      var t := Insert(x, s[1..], key);
      assert s == [s[0]] + s[1..];
      forall z | z in t ensures Text.LessEq(key(s[0]), key(z)) {
        if z == x {
          Text.LessEqTotal(key(x), key(s[0]));
        } else {
          var k :| 0 <= k < |s[1..]| && s[1..][k] == z;
          assert s[k + 1] == z;
        }
      }
      SortedCons(s[0], t, key);
      [s[0]] + t
  }

  /** An element no greater than any element of a sorted sequence can go in front of it. */
  lemma SortedCons<T>(y: T, t: seq<T>, key: T -> string)
    requires SortedBy(t, key)
    requires forall z :: z in t ==> Text.LessEq(key(y), key(z))
    ensures SortedBy([y] + t, key)
  {
    forall i, j | 0 <= i < j < |t| + 1
      ensures Text.LessEq(key(([y] + t)[i]), key(([y] + t)[j]))
    {
      if i == 0 {
        assert t[j - 1] in t;
      } else {
        assert ([y] + t)[i] == t[i - 1] && ([y] + t)[j] == t[j - 1];
      }
    }
  }

  /** `sort` of `s` by `key`: an insertion sort, ordered and a permutation of `s`. */
  function SortBy<T(!new)>(s: seq<T>, key: T -> string): (r: seq<T>)
    ensures SortedBy(r, key)
    ensures multiset(r) == multiset(s)
    ensures forall y :: y in r <==> y in s
  {
    if s == [] then []
    else
      assert s == s[..|s| - 1] + [s[|s| - 1]];
      Insert(s[|s| - 1], SortBy(s[..|s| - 1], key), key)
  }

  /** `[...new Set(s)].sort()` on strings. */
  function SortedDistinct(s: seq<string>): seq<string> {
    SortBy(Dedup(s), x => x)
  }

  /** The sorted distinct values are strictly increasing and are exactly the values of `s`. */
  lemma SortedDistinctSpec(s: seq<string>)
    ensures forall i, j :: 0 <= i < j < |SortedDistinct(s)| ==> Text.Less(SortedDistinct(s)[i], SortedDistinct(s)[j])
    ensures forall x :: x in SortedDistinct(s) <==> x in s
  {
    var d := Dedup(s);
    var r := SortedDistinct(s);
    assert multiset(r) == multiset(d);
    forall i, j | 0 <= i < j < |r| ensures r[i] != r[j] {
      DistinctMultiplicity(d, r[i]);
      if r[i] == r[j] { RepeatedMultiplicity(r, i, j); }
    }
  }

  lemma {:induction false} DistinctMultiplicity<T>(s: seq<T>, x: T)
    requires Distinct(s)
    ensures multiset(s)[x] <= 1
  {
    if s != [] {
      assert Distinct(s[1..]);
      DistinctMultiplicity(s[1..], x);
      assert s == [s[0]] + s[1..];
      if x == s[0] { assert x !in s[1..]; }
    }
  }

  lemma RepeatedMultiplicity<T>(s: seq<T>, i: int, j: int)
    requires 0 <= i < j < |s| && s[i] == s[j]
    ensures multiset(s)[s[i]] >= 2
  {
    assert s == s[..j] + [s[j]] + s[j + 1..];
    assert s[i] in s[..j];
    assert multiset(s) == multiset(s[..j]) + multiset{s[j]} + multiset(s[j + 1..]);
  }
}
