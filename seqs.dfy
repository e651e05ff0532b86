/**
 * The array operations every page of both applications is built from:
 * `filter`, `slice(0, n)`, a stable `sort` (required of `Array.prototype.sort`
 * since ECMAScript 2019, ECMA-262 10th edition, section 22.1.3.27) and the
 * `Array.from(new Set(...))` de-duplication, with the facts about them that
 * the page-level lemmas rest on.
 */
module Seqs {

  /** `r` can be obtained from `s` by deleting elements: order is preserved. */
  ghost predicate IsSubseq<T>(r: seq<T>, s: seq<T>)
    decreases |s|
  {
    if r == [] then true
    else if s == [] then false
    else (r[0] == s[0] && IsSubseq(r[1..], s[1..])) || IsSubseq(r, s[1..])
  }

  /** No element occurs twice. */
  predicate NoDup<T(==)>(s: seq<T>) {
    forall i, j :: 0 <= i < j < |s| ==> s[i] != s[j]
  }

  // ---------------------------------------------------------------------------
  // filter
  // ---------------------------------------------------------------------------

  /**
   * `s.filter(p)`: the elements satisfying `p`, in their original order,
   * each as often as it occurs in `s`.
   */
  function Filter<T(!new)>(s: seq<T>, p: T -> bool): (r: seq<T>)
    ensures |r| <= |s|
    ensures forall x :: x in r <==> x in s && p(x)
    ensures forall x :: multiset(r)[x] == if p(x) then multiset(s)[x] else 0
    ensures IsSubseq(r, s)
    decreases |s|
  {
    if s == [] then []
    else
      assert s == [s[0]] + s[1..];
      if p(s[0]) then [s[0]] + Filter(s[1..], p)
      else Filter(s[1..], p)
  }

  /** A filter that every element passes is the identity. */
  lemma {:induction false} FilterAll<T(!new)>(s: seq<T>, p: T -> bool)
    requires forall x :: x in s ==> p(x)
    ensures Filter(s, p) == s
    decreases |s|
  {
    if s != [] {
      assert s[0] in s;
      assert forall x :: x in s[1..] ==> x in s;
      FilterAll(s[1..], p);
    }
  }

  /** A filter that no element passes yields nothing. */
  lemma FilterNone<T(!new)>(s: seq<T>, p: T -> bool)
    requires forall x :: x in s ==> !p(x)
    ensures Filter(s, p) == []
  {
  }

  /** Filtering a concatenation filters each part. */
  lemma {:induction false} FilterAppend<T(!new)>(s: seq<T>, t: seq<T>, p: T -> bool)
    ensures Filter(s + t, p) == Filter(s, p) + Filter(t, p)
    decreases |s|
  {
    if s == [] {
      assert s + t == t;
    } else {
      assert (s + t)[0] == s[0] && (s + t)[1..] == s[1..] + t;
      FilterAppend(s[1..], t, p);
    }
  }

  /** Elements whose keys are pairwise distinct keep that property through a filter. */
  lemma {:induction false} FilterKeepsDistinctKeys<T(!new), K>(s: seq<T>, p: T -> bool, key: T -> K)
    requires forall i, j :: 0 <= i < j < |s| ==> key(s[i]) != key(s[j])
    ensures forall i, j :: 0 <= i < j < |Filter(s, p)| ==> key(Filter(s, p)[i]) != key(Filter(s, p)[j])
    decreases |s|
  {
    if s != [] {
      var t := s[1..];
      assert forall i, j :: 0 <= i < j < |t| ==> key(t[i]) != key(t[j]) by {
        forall i, j | 0 <= i < j < |t| ensures key(t[i]) != key(t[j]) {
          assert t[i] == s[i + 1] && t[j] == s[j + 1];
        }
      }
      FilterKeepsDistinctKeys(t, p, key);
      if p(s[0]) {
        var r := Filter(s, p);
        var rest := Filter(t, p);
        assert r == [s[0]] + rest;
        forall j | 0 < j < |r| ensures key(r[0]) != key(r[j]) {
          assert r[j] == rest[j - 1] && rest[j - 1] in t;
          var m :| 0 <= m < |t| && t[m] == rest[j - 1];
          assert t[m] == s[m + 1];
        }
        forall i, j | 0 <= i < j < |r| ensures key(r[i]) != key(r[j]) {
          if i > 0 {
            assert r[i] == rest[i - 1] && r[j] == rest[j - 1];
          }
        }
      }
    }
  }

  /** When only the first element passes, the filter keeps exactly that one. */
  lemma FilterOnlyFirst<T(!new)>(s: seq<T>, p: T -> bool)
    requires |s| > 0 && p(s[0])
    requires forall i :: 1 <= i < |s| ==> !p(s[i])
    ensures Filter(s, p) == [s[0]]
  {
    FilterNone(s[1..], p);
  }

  /** Two predicates that agree on every element of `s` select the same elements. */
  lemma {:induction false} FilterCongruent<T(!new)>(s: seq<T>, p: T -> bool, q: T -> bool)
    requires forall x :: x in s ==> p(x) == q(x)
    ensures Filter(s, p) == Filter(s, q)
    decreases |s|
  {
    if s != [] {
      assert s[0] in s;
      assert forall x :: x in s[1..] ==> x in s;
      FilterCongruent(s[1..], p, q);
    }
  }

  /** Filtering by a weaker predicate first changes nothing. */
  lemma {:induction false} FilterNarrowing<T(!new)>(s: seq<T>, p: T -> bool, q: T -> bool)
    requires forall x :: x in s && p(x) ==> q(x)
    ensures Filter(Filter(s, q), p) == Filter(s, p)
    decreases |s|
  {
    if s != [] {
      assert s[0] in s;
      assert forall x :: x in s[1..] ==> x in s;
      FilterNarrowing(s[1..], p, q);
      if q(s[0]) {
        assert Filter(s, q) == [s[0]] + Filter(s[1..], q);
        assert ([s[0]] + Filter(s[1..], q))[1..] == Filter(s[1..], q);
      }
    }
  }

  /** Every sequence is a subsequence of itself. */
  lemma {:induction false} SubseqRefl<T>(s: seq<T>)
    ensures IsSubseq(s, s)
    decreases |s|
  {
    if s != [] {
      SubseqRefl(s[1..]);
    }
  }

  /** A subsequence of a subsequence is a subsequence. */
  lemma {:induction false} SubseqTrans<T>(r: seq<T>, s: seq<T>, t: seq<T>)
    requires IsSubseq(r, s) && IsSubseq(s, t)
    ensures IsSubseq(r, t)
    decreases |t|
  {
    if r != [] && t != [] {
      if s[0] == t[0] && IsSubseq(s[1..], t[1..]) {
        if r[0] == s[0] && IsSubseq(r[1..], s[1..]) {
          SubseqTrans(r[1..], s[1..], t[1..]);
        } else {
          SubseqTrans(r, s[1..], t[1..]);
        }
      } else {
        SubseqTrans(r, s, t[1..]);
      }
    }
  }

  /** A prefix is a subsequence. */
  lemma {:induction false} PrefixSubseq<T>(r: seq<T>, s: seq<T>)
    requires |r| <= |s| && r == s[..|r|]
    ensures IsSubseq(r, s)
    decreases |s|
  {
    if r != [] {
      assert r[1..] == s[1..][..|r| - 1];
      PrefixSubseq(r[1..], s[1..]);
    }
  }

  // ---------------------------------------------------------------------------
  // slice(0, n)
  // ---------------------------------------------------------------------------

  /** `s.slice(0, n)`: the first `n` elements, or all of them when there are fewer. */
  function Take<T>(s: seq<T>, n: nat): (r: seq<T>)
    ensures |r| == if |s| < n then |s| else n
    ensures r == s[..|r|]
    ensures IsSubseq(r, s)
  {
    var r := if n <= |s| then s[..n] else s;
    PrefixSubseq(r, s);
    r
  }

  // ---------------------------------------------------------------------------
  // stable sort by a numeric key
  // ---------------------------------------------------------------------------

  /** Keys never decrease from left to right. */
  ghost predicate SortedBy<T>(s: seq<T>, key: T -> real) {
    forall i, j :: 0 <= i < j < |s| ==> key(s[i]) <= key(s[j])
  }

  /**
   * Inserts `x` in front of the first element whose key is not smaller: `x`
   * stands for an element that came earlier in the input than every element
   * of `t`, so it goes before the ones whose key equals its own.
   */
  function InsertBy<T(!new)>(x: T, t: seq<T>, key: T -> real): (r: seq<T>)
    requires SortedBy(t, key)
    ensures SortedBy(r, key)
    ensures multiset(r) == multiset(t) + multiset{x}
    ensures |r| == |t| + 1
    decreases |t|
  {
    if t == [] || key(x) <= key(t[0]) then [x] + t
    else
      var rest := InsertBy(x, t[1..], key);
      assert t == [t[0]] + t[1..];
      ConsSorted(t[0], rest, t[1..], x, key);
      [t[0]] + rest
  }

  /** Putting `h` in front of a sorted `rest` whose elements come from `t` or are `x` keeps it sorted. */
  lemma ConsSorted<T(!new)>(h: T, rest: seq<T>, t: seq<T>, x: T, key: T -> real)
    requires SortedBy(rest, key) && SortedBy([h] + t, key) && key(h) < key(x)
    requires multiset(rest) == multiset(t) + multiset{x}
    ensures SortedBy([h] + rest, key)
  {
    forall j | 0 <= j < |rest| ensures key(h) <= key(rest[j]) {
      assert rest[j] in multiset(rest);
      if rest[j] != x {
        assert rest[j] in multiset(t);
        var k :| 0 <= k < |t| && t[k] == rest[j];
        assert ([h] + t)[0] == h && ([h] + t)[k + 1] == rest[j];
      }
    }
    var r := [h] + rest;
    forall i, j | 0 <= i < j < |r| ensures key(r[i]) <= key(r[j]) {
      if i > 0 {
        assert r[i] == rest[i - 1] && r[j] == rest[j - 1];
      } else {
        assert r[j] == rest[j - 1];
      }
    }
  }

  /**
   * The stable sort of the JavaScript engine, as an insertion sort: the
   * result is ordered by `key`, is a permutation of `s`, and keeps elements
   * with equal keys in their input order. A comparator `(a, b) => k(a) - k(b)`
   * sorts by `k`; `(a, b) => k(b) - k(a)` sorts by `-k`.
   */
  function SortBy<T(!new)>(s: seq<T>, key: T -> real): (r: seq<T>)
    ensures SortedBy(r, key)
    ensures multiset(r) == multiset(s)
    ensures |r| == |s|
    decreases |s|
  {
    if s == [] then []
    else
      assert s == [s[0]] + s[1..];
      InsertBy(s[0], SortBy(s[1..], key), key)
  }

  /** Sorting neither adds nor loses an element. */
  lemma SortByMembers<T(!new)>(s: seq<T>, key: T -> real)
    ensures forall x :: x in SortBy(s, key) <==> x in s
  {
    var r := SortBy(s, key);
    assert forall x :: x in r <==> x in multiset(r);
    assert forall x :: x in s <==> x in multiset(s);
  }

  /** Sorting an already sorted sequence changes nothing: no element moves past an equal one. */
  lemma {:induction false} SortSorted<T(!new)>(s: seq<T>, key: T -> real)
    requires SortedBy(s, key)
    ensures SortBy(s, key) == s
    decreases |s|
  {
    if s != [] {
      assert SortedBy(s[1..], key);
      SortSorted(s[1..], key);
      if |s| > 1 {
        assert key(s[0]) <= key(s[1..][0]);
      }
    }
  }

  /** The test "has key `k`", by which stability is stated. */
  function HasKey<T>(key: T -> real, k: real): T -> bool {
    x => key(x) == k
  }

  /**
   * The sort is stable: the elements that share a key come out in the order
   * they went in.
   */
  lemma SortByStable<T(!new)>(s: seq<T>, key: T -> real, k: real)
    ensures Filter(SortBy(s, key), HasKey(key, k)) == Filter(s, HasKey(key, k))
  {
    var same := Filter(s, HasKey(key, k));
    SortFilterCommute(s, key, HasKey(key, k));
    forall i, j | 0 <= i < j < |same| ensures key(same[i]) <= key(same[j]) {
      assert same[i] in same && same[j] in same;
    }
    SortSorted(same, key);
  }

  /**
   * Filtering the first `n` elements gives a prefix of filtering them all:
   * what `slice(0, n)` keeps of a class of elements is the front of that class.
   */
  lemma FilterOfTake<T(!new)>(s: seq<T>, n: nat, p: T -> bool)
    ensures |Filter(Take(s, n), p)| <= |Filter(s, p)|
    ensures Filter(Take(s, n), p) == Filter(s, p)[..|Filter(Take(s, n), p)|]
  {
    var t := Take(s, n);
    assert s == t + s[|t|..];
    FilterAppend(t, s[|t|..], p);
  }

  /**
   * When no two elements share a key there is only one sorted arrangement:
   * two sorted permutations of each other are equal.
   */
  lemma {:induction false} SortedUnique<T(!new)>(a: seq<T>, b: seq<T>, key: T -> real)
    requires SortedBy(a, key) && SortedBy(b, key) && multiset(a) == multiset(b)
    requires forall x, y :: x in a && y in a && key(x) == key(y) ==> x == y
    ensures a == b
    decreases |a|
  {
    assert |a| == |multiset(a)| == |multiset(b)| == |b|;
    if a != [] {
      SortedSameHead(a, b, key);
      TailPermutation(a, b);
      SortedTail(a, key);
      SortedTail(b, key);
      assert forall x :: x in a[1..] ==> x in a;
      SortedUnique(a[1..], b[1..], key);
    }
  }

  /** Two permutations with the same first element are permutations after it. */
  lemma TailPermutation<T>(a: seq<T>, b: seq<T>)
    requires a != [] && b != [] && a[0] == b[0] && multiset(a) == multiset(b)
    ensures multiset(a[1..]) == multiset(b[1..])
  {
    assert a == [a[0]] + a[1..] && b == [b[0]] + b[1..];
    assert multiset(a) == multiset{a[0]} + multiset(a[1..]);
    assert multiset(b) == multiset{b[0]} + multiset(b[1..]);
    calc {
      multiset(a[1..]);
      multiset(a) - multiset{a[0]};
      multiset(b) - multiset{b[0]};
      multiset(b[1..]);
    }
  }

  /** Dropping the first element keeps a sequence sorted. */
  lemma SortedTail<T>(a: seq<T>, key: T -> real)
    requires a != [] && SortedBy(a, key)
    ensures SortedBy(a[1..], key)
  {
    forall i, j | 0 <= i < j < |a[1..]| ensures key(a[1..][i]) <= key(a[1..][j]) {
      assert a[1..][i] == a[i + 1] && a[1..][j] == a[j + 1];
    }
  }

  /** Both sorted permutations start with the element of least key. */
  lemma SortedSameHead<T(!new)>(a: seq<T>, b: seq<T>, key: T -> real)
    requires a != [] && b != []
    requires SortedBy(a, key) && SortedBy(b, key) && multiset(a) == multiset(b)
    requires forall x, y :: x in a && y in a && key(x) == key(y) ==> x == y
    ensures a[0] == b[0]
  {
    assert a[0] in multiset(b) && b[0] in multiset(a);
    var i :| 0 <= i < |b| && b[i] == a[0];
    var j :| 0 <= j < |a| && a[j] == b[0];
    assert key(b[0]) <= key(a[0]) <= key(b[0]);
  }

  /** Two repetition-free sequences with the same elements are permutations of each other. */
  lemma NoDupPermutation<T>(a: seq<T>, b: seq<T>)
    requires NoDup(a) && NoDup(b)
    requires forall x :: x in a <==> x in b
    ensures multiset(a) == multiset(b)
  {
    forall x ensures multiset(a)[x] == multiset(b)[x] {
      NoDupCount(a, x);
      NoDupCount(b, x);
    }
  }

  /** In a repetition-free sequence every value occurs once or not at all. */
  lemma {:induction false} NoDupCount<T>(s: seq<T>, x: T)
    requires NoDup(s)
    ensures multiset(s)[x] == if x in s then 1 else 0
    decreases |s|
  {
    if s != [] {
      assert NoDup(s[1..]);
      NoDupCount(s[1..], x);
      assert s == [s[0]] + s[1..];
      assert s[0] !in s[1..] by {
        forall i | 0 <= i < |s[1..]| ensures s[1..][i] != s[0] {
          assert s[1..][i] == s[i + 1];
        }
      }
    }
  }

  /** Filtering commutes with inserting into a sorted sequence. */
  lemma {:induction false} FilterInsert<T(!new)>(x: T, t: seq<T>, key: T -> real, p: T -> bool)
    requires SortedBy(t, key)
    ensures SortedBy(Filter(t, p), key)
    ensures Filter(InsertBy(x, t, key), p)
         == if p(x) then InsertBy(x, Filter(t, p), key) else Filter(t, p)
    decreases |t|
  {
    FilteredSorted(t, key, p);
    if t == [] {
    } else if key(x) <= key(t[0]) {
      assert InsertBy(x, t, key) == [x] + t;
      assert ([x] + t)[1..] == t;
      if p(x) {
        var ft := Filter(t, p);
        if ft != [] {
          assert ft[0] in t;
          var k :| 0 <= k < |t| && t[k] == ft[0];
          assert key(t[0]) <= key(ft[0]);
        }
      }
    } else {
      assert SortedBy(t[1..], key);
      FilterInsert(x, t[1..], key, p);
      assert InsertBy(x, t, key) == [t[0]] + InsertBy(x, t[1..], key);
      assert ([t[0]] + InsertBy(x, t[1..], key))[1..] == InsertBy(x, t[1..], key);
    }
  }

  /** A filter of a sorted sequence is sorted. */
  lemma FilteredSorted<T(!new)>(t: seq<T>, key: T -> real, p: T -> bool)
    requires SortedBy(t, key)
    ensures SortedBy(Filter(t, p), key)
  {
    SubseqSorted(Filter(t, p), t, key);
  }

  lemma {:induction false} SubseqSorted<T(!new)>(r: seq<T>, t: seq<T>, key: T -> real)
    requires SortedBy(t, key) && IsSubseq(r, t)
    ensures SortedBy(r, key)
    decreases |t|
  {
    if r != [] && t != [] {
      assert SortedBy(t[1..], key);
      if r[0] == t[0] && IsSubseq(r[1..], t[1..]) {
        SubseqSorted(r[1..], t[1..], key);
        SubseqMembers(r[1..], t[1..]);
        forall j | 0 < j < |r| ensures key(r[0]) <= key(r[j]) {
          assert r[j] == r[1..][j - 1];
          assert r[j] in t[1..];
        }
      } else {
        SubseqSorted(r, t[1..], key);
      }
    }
  }

  /** A subsequence only holds elements of the sequence. */
  lemma {:induction false} SubseqMembers<T(!new)>(r: seq<T>, t: seq<T>)
    requires IsSubseq(r, t)
    ensures forall x :: x in r ==> x in t
    decreases |t|
  {
    if r != [] && t != [] {
      if r[0] == t[0] && IsSubseq(r[1..], t[1..]) {
        SubseqMembers(r[1..], t[1..]);
        assert r == [r[0]] + r[1..];
      } else {
        SubseqMembers(r, t[1..]);
      }
    }
  }

  /**
   * Sorting after filtering gives the same sequence as filtering after
   * sorting: with a stable sort the filter may be pulled out of the sort.
   */
  lemma {:induction false} SortFilterCommute<T(!new)>(s: seq<T>, key: T -> real, p: T -> bool)
    ensures SortBy(Filter(s, p), key) == Filter(SortBy(s, key), p)
    decreases |s|
  {
    if s != [] {
      SortFilterCommute(s[1..], key, p);
      FilterInsert(s[0], SortBy(s[1..], key), key, p);
    }
  }

  /**
   * In a sequence sorted by `key`, the elements whose key is at most `k` form
   * a prefix: filtering by "key <= k" keeps the front and drops the back.
   */
  lemma {:induction false} SortedFilterPrefix<T(!new)>(t: seq<T>, key: T -> real, p: T -> bool, k: real)
    requires SortedBy(t, key)
    requires forall y :: y in t ==> (p(y) <==> key(y) <= k)
    ensures Filter(t, p) == t[..|Filter(t, p)|]
    decreases |t|
  {
    if t != [] {
      var rest := t[1..];
      assert t[0] in t;
      assert forall y :: y in rest ==> y in t;
      assert SortedBy(rest, key);
      if p(t[0]) {
        SortedFilterPrefix(rest, key, p, k);
        ConsPrefix(t, Filter(rest, p));
      } else {
        forall y | y in rest ensures !p(y) {
          var j :| 0 <= j < |rest| && rest[j] == y;
          assert y == t[j + 1];
        }
        FilterNone(rest, p);
      }
    }
  }

  /** Putting the head back in front of a prefix of the tail gives a prefix. */
  lemma ConsPrefix<T>(t: seq<T>, f: seq<T>)
    requires t != [] && |f| <= |t| - 1 && f == t[1..][..|f|]
    ensures [t[0]] + f == t[..1 + |f|]
  {
  }

  /** `slice(0, n)` keeps some of the occurrences and nothing else. */
  lemma TakeMultiset<T>(s: seq<T>, n: nat)
    ensures multiset(Take(s, n)) <= multiset(s)
    ensures forall x :: x in Take(s, n) ==> x in s
  {
    var r := Take(s, n);
    assert s == r + s[|r|..];
    assert multiset(s) == multiset(r) + multiset(s[|r|..]);
  }

  /**
   * What `slice(0, n)` of a sorted sequence leaves out has a key at least as
   * large as every key it keeps.
   */
  lemma TakeSortedBound<T(!new)>(t: seq<T>, key: T -> real, n: nat, y: T, z: T)
    requires SortedBy(t, key)
    requires y in t && y !in Take(t, n) && z in Take(t, n)
    ensures key(z) <= key(y)
  {
    var i :| 0 <= i < |Take(t, n)| && Take(t, n)[i] == z;
    var j :| 0 <= j < |t| && t[j] == y;
  }

  // ---------------------------------------------------------------------------
  // Array.from(new Set(s))
  // ---------------------------------------------------------------------------

  /** Position of the first occurrence of `x` in `s`. */
  function FirstIndex<T(==)>(s: seq<T>, x: T): (i: nat)
    requires x in s
    ensures i < |s| && s[i] == x
    ensures forall k :: 0 <= k < i ==> s[k] != x
  {
    if s[0] == x then 0 else 1 + FirstIndex(s[1..], x)
  }

  /**
   * `Array.from(new Set(s))`: a `Set` remembers insertion order and ignores
   * a value it already holds, so the result lists each value once, at its
   * first occurrence.
   */
  function Distinct<T(==,!new)>(s: seq<T>): (r: seq<T>)
    ensures NoDup(r)
    ensures forall x :: x in r <==> x in s
    ensures forall i, j :: 0 <= i < j < |r| ==> FirstIndex(s, r[i]) < FirstIndex(s, r[j])
    decreases |s|
  {
    if s == [] then []
    else
      var init := s[..|s| - 1];
      var last := s[|s| - 1];
      var d := Distinct(init);
      assert s == init + [last];
      FirstIndexExtend(init, last);
      if last in d then d else d + [last]
  }

  /** Appending an element does not move the first occurrence of anything already present. */
  lemma FirstIndexExtend<T(!new)>(init: seq<T>, last: T)
    ensures forall x :: x in init ==> FirstIndex(init + [last], x) == FirstIndex(init, x)
    ensures last !in init ==> FirstIndex(init + [last], last) == |init|
  {
    var s := init + [last];
    forall x | x in init ensures FirstIndex(s, x) == FirstIndex(init, x) {
      var i, j := FirstIndex(s, x), FirstIndex(init, x);
      assert s[j] == x;
      if i < |init| {
        assert init[i] == x;
      }
    }
    if last !in init {
      var i := FirstIndex(s, last);
    }
  }
}
