/** Sequence operations that the pages perform on their lists:
    `Array.prototype.filter`, `slice(0, n)`, `indexOf` and the
    `[...new Set(xs)]` de-duplication idiom. */
module Seqs {

  /** `a` is obtained from `b` by deleting elements; order is kept. */
  predicate IsSubsequence<T(==,!new)>(a: seq<T>, b: seq<T>)
    decreases |b|
  {
    if a == [] then true
    else if b == [] then false
    else (a[0] == b[0] && IsSubsequence(a[1..], b[1..])) || IsSubsequence(a, b[1..])
  }

  predicate NoDuplicates<T(==,!new)>(s: seq<T>)
  {
    forall i, j :: 0 <= i < j < |s| ==> s[i] != s[j]
  }

  /** `xs.filter(p)`: the elements satisfying `p`, in their original order
      (FilterIsSubsequence) and with their multiplicities (FilterMultiplicity). */
  function Filter<T(==,!new)>(s: seq<T>, p: T -> bool): (r: seq<T>)
    ensures |r| <= |s|
    ensures forall i :: 0 <= i < |r| ==> p(r[i])
    ensures forall x :: x in r <==> x in s && p(x)
    decreases |s|
  {
    if s == [] then []
    else if p(s[0]) then [s[0]] + Filter(s[1..], p)
    else Filter(s[1..], p)
  }

  /** Every passing element is kept as often as it occurs, every failing
      one is dropped: `filter` never merges or drops repeated copies. */
  lemma {:induction false} FilterMultiplicity<T(!new)>(s: seq<T>, p: T -> bool, x: T)
    ensures multiset(Filter(s, p))[x] == if p(x) then multiset(s)[x] else 0
    decreases |s|
  {
    if s != [] {
      FilterMultiplicity(s[1..], p, x);
      assert s == [s[0]] + s[1..];
    }
  }

  /** The filtered list keeps the original order. */
  lemma {:induction false} FilterIsSubsequence<T(!new)>(s: seq<T>, p: T -> bool)
    ensures IsSubsequence(Filter(s, p), s)
    decreases |s|
  {
    if s != [] {
      FilterIsSubsequence(s[1..], p);
      var r := Filter(s, p);
      if p(s[0]) {
        assert r[0] == s[0] && r[1..] == Filter(s[1..], p);
      } else {
        if r != [] {
          assert r == Filter(s[1..], p);
        }
      }
    }
  }

  /** A filter that every element passes returns the list unchanged. */
  lemma {:induction false} FilterKeepsAll<T(!new)>(s: seq<T>, p: T -> bool)
    requires forall i :: 0 <= i < |s| ==> p(s[i])
    ensures Filter(s, p) == s
    decreases |s|
  {
    if s != [] {
      FilterKeepsAll(s[1..], p);
    }
  }

  /** A filter that no element passes returns the empty list. */
  lemma {:induction false} FilterDropsAll<T(!new)>(s: seq<T>, p: T -> bool)
    requires forall i :: 0 <= i < |s| ==> !p(s[i])
    ensures Filter(s, p) == []
    decreases |s|
  {
    if s != [] {
      FilterDropsAll(s[1..], p);
    }
  }

  /** The number of `true` entries of a mask. */
  function CountTrue(mask: seq<bool>): (n: nat)
    ensures n <= |mask|
  {
    if mask == [] then 0 else (if mask[0] then 1 else 0) + CountTrue(mask[1..])
  }

  /** When `mask` records, entry by entry, whether `p` accepts `s`, the
      filtered list has as many elements as the mask has `true`s. */
  lemma {:induction false} FilterLengthByMask<T(!new)>(s: seq<T>, p: T -> bool, mask: seq<bool>)
    requires |mask| == |s| && forall k :: 0 <= k < |s| ==> p(s[k]) == mask[k]
    ensures |Filter(s, p)| == CountTrue(mask)
    decreases |s|
  {
    if s != [] {
      FilterLengthByMask(s[1..], p, mask[1..]);
    }
  }

  /** `xs.slice(0, n)`: the first `n` elements, or all of them when
      there are fewer. */
  function Take<T>(s: seq<T>, n: nat): (r: seq<T>)
    ensures |r| <= n && |r| <= |s|
    ensures |s| <= n ==> r == s
    ensures n < |s| ==> |r| == n
    ensures r == s[..|r|]
  {
    if |s| <= n then s else s[..n]
  }

  /** `xs.indexOf(x)`: the first position of `x`, or -1. */
  function IndexOf<T(==,!new)>(s: seq<T>, x: T): (i: int)
    ensures -1 <= i < |s|
    ensures 0 <= i ==> s[i] == x && x !in s[..i]
    ensures i == -1 <==> x !in s
    decreases |s|
  {
    if s == [] then -1
    else if s[0] == x then 0
    else
      var j := IndexOf(s[1..], x);
      if j == -1 then -1
      else
        assert s[..j + 1] == [s[0]] + s[1..][..j];
        j + 1
  }

  /** `[...new Set(xs)]` with the values in `seen` already inserted:
      a JavaScript Set iterates in insertion order, so each value
      appears once, at the place of its first occurrence. */
  function DistinctFrom<T(==,!new)>(s: seq<T>, seen: set<T>): (r: seq<T>)
    ensures NoDuplicates(r)
    ensures forall x :: x in r <==> x in s && x !in seen
    decreases |s|
  {
    if s == [] then []
    else if s[0] in seen then DistinctFrom(s[1..], seen)
    else
      var rest := DistinctFrom(s[1..], seen + {s[0]});
      assert s[0] !in rest;
      [s[0]] + rest
  }

  /** `[...new Set(xs)]`. */
  function Distinct<T(==,!new)>(s: seq<T>): (r: seq<T>)
    ensures NoDuplicates(r)
    ensures forall x :: x in r <==> x in s
  {
    DistinctFrom(s, {})
  }

  /** The values of `r` appear in the order of their first occurrence in `s`. */
  predicate InFirstOccurrenceOrder<T(==,!new)>(r: seq<T>, s: seq<T>)
  {
    forall i, j :: 0 <= i < j < |r| ==> IndexOf(s, r[i]) < IndexOf(s, r[j])
  }

  /** The de-duplicated list keeps the values in order of first occurrence. */
  lemma {:induction false} DistinctFromFirstOccurrenceOrder<T(!new)>(s: seq<T>, seen: set<T>)
    ensures InFirstOccurrenceOrder(DistinctFrom(s, seen), s)
    decreases |s|
  {
    if s != [] {
      var r := DistinctFrom(s, seen);
      var seen' := if s[0] in seen then seen else seen + {s[0]};
      var rest := DistinctFrom(s[1..], seen');
      DistinctFromFirstOccurrenceOrder(s[1..], seen');
      assert InFirstOccurrenceOrder(rest, s[1..]);
      // Every value of `rest` differs from s[0], so its first index in s
      // is one more than its first index in s[1..].
      forall k | 0 <= k < |rest|
        ensures IndexOf(s, rest[k]) == IndexOf(s[1..], rest[k]) + 1
      {
        assert rest[k] in rest;
      }
      if s[0] in seen {
        assert r == rest;
      } else {
        assert r == [s[0]] + rest;
        forall i, j | 0 <= i < j < |r|
          ensures IndexOf(s, r[i]) < IndexOf(s, r[j])
        {
          assert r[j] == rest[j - 1];
          if i > 0 {
            assert r[i] == rest[i - 1];
            assert IndexOf(s[1..], rest[i - 1]) < IndexOf(s[1..], rest[j - 1]);
          } else {
            assert IndexOf(s, r[i]) == 0;
          }
        }
      }
    }
  }

  /** The de-duplicated list is order-preserving: it is a subsequence. */
  lemma {:induction false} DistinctFromIsSubsequence<T(!new)>(s: seq<T>, seen: set<T>)
    ensures IsSubsequence(DistinctFrom(s, seen), s)
    decreases |s|
  {
    if s != [] {
      var seen' := if s[0] in seen then seen else seen + {s[0]};
      DistinctFromIsSubsequence(s[1..], seen');
      var r := DistinctFrom(s, seen);
      if s[0] !in seen {
        assert r[0] == s[0] && r[1..] == DistinctFrom(s[1..], seen');
      } else if r != [] {
        assert r == DistinctFrom(s[1..], seen');
      }
    }
  }
}
