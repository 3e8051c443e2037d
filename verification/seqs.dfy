/** Sequence folds used in place of the source's parallel loops. The source
    accumulates into atomic counters and concurrent maps, so the order in which
    elements are visited must not matter; the permutation lemmas here say so. */
module Seqs {
  import opened Wrappers

  /** No element occurs twice. */
  predicate Distinct<T(==)>(s: seq<T>) {
    forall i, j :: 0 <= i < j < |s| ==> s[i] != s[j]
  }

  /** No two elements share a key. */
  predicate DistinctKeys<T, K(==)>(s: seq<T>, key: T -> K) {
    forall i, j :: 0 <= i < j < |s| ==> key(s[i]) != key(s[j])
  }

  /** Sum of `f` over the elements of `s`. */
  function SumMap<T>(s: seq<T>, f: T -> nat): nat {
    if |s| == 0 then 0 else f(s[0]) + SumMap(s[1..], f)
  }

  /** No element weighs more than the whole sequence. */
  lemma {:induction false} SumMapMember<T>(s: seq<T>, f: T -> nat, x: T)
    requires x in s
    ensures f(x) <= SumMap(s, f)
    decreases |s|
  {
    if s[0] != x {
      SumMapMember(s[1..], f, x);
    }
  }

  /** The position of the first occurrence of `x` in `s`. */
  function IndexOf<T(==)>(s: seq<T>, x: T): (i: nat)
    requires x in s
    ensures i < |s| && s[i] == x
    ensures forall j :: 0 <= j < i ==> s[j] != x
  {
    if s[0] == x then 0 else 1 + IndexOf(s[1..], x)
  }

  /** Dropping the head shifts the first occurrence of any other element by one. */
  lemma IndexOfTail<T>(s: seq<T>, x: T)
    requires x in s && x != s[0]
    ensures x in s[1..] && IndexOf(s, x) == 1 + IndexOf(s[1..], x)
  {
  }

  /** The `Some` images of `f` over `s`, in order. */
  function FilterMap<T, U>(s: seq<T>, f: T -> Option<U>): (r: seq<U>)
    ensures |r| <= |s|
    ensures forall i :: 0 <= i < |s| && f(s[i]).Some? ==> f(s[i]).value in r
    ensures forall u :: u in r ==> exists i :: 0 <= i < |s| && f(s[i]) == Some(u)
  {
    if |s| == 0 then []
    else match f(s[0])
      case Some(u) => [u] + FilterMap(s[1..], f)
      case None => FilterMap(s[1..], f)
  }

  /** `s` with `x` stored under its key: an element with the same key is
      replaced in place, otherwise `x` is appended. */
  function Upsert<T, K(==)>(s: seq<T>, x: T, key: T -> K): (r: seq<T>)
    requires DistinctKeys(s, key)
    ensures DistinctKeys(r, key)
    ensures x in r
    ensures forall y :: y in r ==> y == x || (y in s && key(y) != key(x))
    ensures forall y :: y in s && key(y) != key(x) ==> y in r
  {
    if |s| == 0 then [x]
    else if key(s[0]) == key(x) then
      assert forall y :: y in s[1..] ==> key(y) != key(x) by {
        forall k | 0 <= k < |s[1..]| ensures key(s[1..][k]) != key(x) {
          assert s[1..][k] == s[k + 1];
        }
      }
      [x] + s[1..]
    else
      var rest := Upsert(s[1..], x, key);
      assert forall y :: y in rest ==> key(y) != key(s[0]) by {
        forall k | 0 <= k < |s[1..]| ensures key(s[1..][k]) != key(s[0]) {
          assert s[1..][k] == s[k + 1];
        }
      }
      [s[0]] + rest
  }

  /** In a sequence without repetitions every element occurs once. */
  lemma {:induction false} DistinctMultiplicity<T>(s: seq<T>, x: T)
    requires Distinct(s)
    ensures multiset(s)[x] == if x in s then 1 else 0
    decreases |s|
  {
    if |s| > 0 {
      DistinctMultiplicity(s[1..], x);
      assert s == [s[0]] + s[1..];
      assert s[0] !in s[1..] by {
        forall k | 0 <= k < |s[1..]| ensures s[1..][k] != s[0] {
          assert s[1..][k] == s[k + 1];
        }
      }
    }
  }

  /** Two repetition-free sequences with the same elements are permutations
      of each other. */
  lemma SameElementsPermutation<T>(a: seq<T>, b: seq<T>)
    requires Distinct(a) && Distinct(b)
    requires forall x :: x in a <==> x in b
    ensures multiset(a) == multiset(b)
  {
    forall x ensures multiset(a)[x] == multiset(b)[x] {
      DistinctMultiplicity(a, x);
      DistinctMultiplicity(b, x);
    }
  }

  lemma ConcatAssoc<T>(a: seq<T>, b: seq<T>, c: seq<T>)
    ensures a + (b + c) == (a + b) + c
  {
  }

  lemma {:induction false} SumMapConcat<T>(a: seq<T>, b: seq<T>, f: T -> nat)
    ensures SumMap(a + b, f) == SumMap(a, f) + SumMap(b, f)
    decreases |a|
  {
    if |a| > 0 {
      assert (a + b)[1..] == a[1..] + b;
      SumMapConcat(a[1..], b, f);
    } else {
      assert a + b == b;
    }
  }

  lemma {:induction false} FilterMapConcat<T, U>(a: seq<T>, b: seq<T>, f: T -> Option<U>)
    ensures FilterMap(a + b, f) == FilterMap(a, f) + FilterMap(b, f)
    decreases |a|
  {
    if |a| > 0 {
      assert (a + b)[1..] == a[1..] + b;
      FilterMapConcat(a[1..], b, f);
    } else {
      assert a + b == b;
    }
  }

  /** Splits `b` around one occurrence of `a[0]`, leaving the rest of `a` and
      the rest of `b` permutations of each other. */
  lemma PickOccurrence<T>(a: seq<T>, b: seq<T>) returns (i: nat)
    requires |a| > 0 && multiset(a) == multiset(b)
    ensures i < |b| && b[i] == a[0]
    ensures b == b[..i] + [a[0]] + b[i+1..]
    ensures multiset(a[1..]) == multiset(b[..i] + b[i+1..])
  {
    assert a == [a[0]] + a[1..];
    assert a[0] in multiset(b);
    i :| 0 <= i < |b| && b[i] == a[0];
    assert b == b[..i] + [a[0]] + b[i+1..];
    assert multiset(b[..i] + b[i+1..]) == multiset(b[..i]) + multiset(b[i+1..]);
    calc {
      multiset(a[1..]) + multiset{a[0]};
      multiset(a);
      multiset(b);
      multiset(b[..i]) + multiset{a[0]} + multiset(b[i+1..]);
      multiset(b[..i] + b[i+1..]) + multiset{a[0]};
    }
    assert multiset(a[1..]) == multiset(a[1..]) + multiset{a[0]} - multiset{a[0]};
  }

  /** A sum does not depend on the order of its terms. */
  lemma {:induction false} SumMapPermutation<T>(a: seq<T>, b: seq<T>, f: T -> nat)
    requires multiset(a) == multiset(b)
    ensures SumMap(a, f) == SumMap(b, f)
    decreases |a|
  {
    if |a| == 0 {
      assert |b| == |multiset(b)| == 0;
    } else {
      var i := PickOccurrence(a, b);
      SumMapPermutation(a[1..], b[..i] + b[i+1..], f);
      SumMapConcat(b[..i], b[i+1..], f);
      SumMapConcat(b[..i] + [a[0]], b[i+1..], f);
      SumMapConcat(b[..i], [a[0]], f);
    }
  }

  /** Filtering and mapping a permutation yields a permutation. */
  lemma {:induction false} FilterMapPermutation<T, U>(a: seq<T>, b: seq<T>, f: T -> Option<U>)
    requires multiset(a) == multiset(b)
    ensures multiset(FilterMap(a, f)) == multiset(FilterMap(b, f))
    decreases |a|
  {
    if |a| == 0 {
      assert |b| == |multiset(b)| == 0;
    } else {
      var i := PickOccurrence(a, b);
      FilterMapPermutation(a[1..], b[..i] + b[i+1..], f);
      FilterMapConcat(b[..i], b[i+1..], f);
      FilterMapConcat(b[..i] + [a[0]], b[i+1..], f);
      FilterMapConcat(b[..i], [a[0]], f);
    }
  }
}
