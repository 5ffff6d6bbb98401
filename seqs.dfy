/**
 * Order-preserving filtering and first-match lookup over sequences: the
 * `Array.prototype.filter` / `Array.prototype.find` used by the data modules,
 * and the list comprehensions of the data-preparation scripts.
 */
module Seqs {
  import opened Wrappers

  /** The elements of `s` that satisfy `p`, in their original order. */
  function Filter<T(!new)>(s: seq<T>, p: T -> bool): (r: seq<T>)
    ensures |r| <= |s|
    ensures forall x :: x in r <==> x in s && p(x)
  {
    if |s| == 0 then []
    else if p(s[0]) then [s[0]] + Filter(s[1..], p) else Filter(s[1..], p)
  }

  /** Filtering keeps every occurrence of the elements that pass and none of the others. */
  lemma {:induction false} FilterCounts<T(!new)>(s: seq<T>, p: T -> bool)
    ensures forall x :: p(x) ==> multiset(Filter(s, p))[x] == multiset(s)[x]
    ensures forall x :: !p(x) ==> multiset(Filter(s, p))[x] == 0
  {
    if |s| > 0 {
      assert s == [s[0]] + s[1..];
      FilterCounts(s[1..], p);
    }
  }

  /** `sub` can be obtained from `s` by deleting elements, keeping the order of the rest. */
  ghost predicate IsSubsequence<T>(sub: seq<T>, s: seq<T>)
    decreases |s|
  {
    if |sub| == 0 then true
    else if |s| == 0 then false
    else if sub[0] == s[0] then IsSubsequence(sub[1..], s[1..])
    else IsSubsequence(sub, s[1..])
  }

  lemma {:induction false} FilterIsSubsequence<T(!new)>(s: seq<T>, p: T -> bool)
    ensures IsSubsequence(Filter(s, p), s)
  {
    if |s| > 0 {
      FilterIsSubsequence(s[1..], p);
      var rest := Filter(s[1..], p);
      if !p(s[0]) && |rest| > 0 {
        // every kept element satisfies p, so the head of the result is not s[0]
        assert rest[0] in rest;
      }
    }
  }

  /** Filtering a concatenation filters each part: the filter never reorders across parts. */
  lemma {:induction false} FilterAppend<T(!new)>(a: seq<T>, b: seq<T>, p: T -> bool)
    ensures Filter(a + b, p) == Filter(a, p) + Filter(b, p)
  {
    if |a| > 0 {
      assert (a + b)[1..] == a[1..] + b;
      FilterAppend(a[1..], b, p);
    } else {
      assert a + b == b;
    }
  }

  /** Filtering by a stricter predicate `q` gives the same as first filtering by `p` and then by `q`. */
  lemma {:induction false} FilterNested<T(!new)>(s: seq<T>, p: T -> bool, q: T -> bool)
    requires forall x :: q(x) ==> p(x)
    ensures Filter(s, q) == Filter(Filter(s, p), q)
  {
    if |s| > 0 {
      FilterNested(s[1..], p, q);
    }
  }

  /**
   * `sel` is exactly the order-preserving selection of `s` by `keep`: it
   * holds the elements that pass and no others, each as often as in `s`,
   * in their original order.
   */
  ghost predicate Selects<T(!new)>(sel: seq<T>, s: seq<T>, keep: T -> bool)
  {
    && (forall x :: x in sel <==> x in s && keep(x))
    && (forall x :: keep(x) ==> multiset(sel)[x] == multiset(s)[x])
    && IsSubsequence(sel, s)
  }

  /** `Filter` is such a selection. */
  lemma FilterSelects<T(!new)>(s: seq<T>, keep: T -> bool)
    ensures Selects(Filter(s, keep), s, keep)
  {
    FilterCounts(s, keep);
    FilterIsSubsequence(s, keep);
  }

  /** A filter that no element passes is empty. */
  lemma {:induction false} FilterNone<T(!new)>(s: seq<T>, p: T -> bool)
    requires forall i :: 0 <= i < |s| ==> !p(s[i])
    ensures Filter(s, p) == []
  {
    if |s| > 0 {
      FilterNone(s[1..], p);
    }
  }

  /** A filter that every element passes keeps the whole sequence. */
  lemma {:induction false} FilterAll<T(!new)>(s: seq<T>, p: T -> bool)
    requires forall i :: 0 <= i < |s| ==> p(s[i])
    ensures Filter(s, p) == s
  {
    if |s| > 0 {
      FilterAll(s[1..], p);
    }
  }

  /** The index of the first element of `s` that satisfies `p`, if any. */
  function FindIndex<T>(s: seq<T>, p: T -> bool): (r: Option<nat>)
    ensures r.None? <==> forall i :: 0 <= i < |s| ==> !p(s[i])
    ensures r.Some? ==> r.value < |s| && p(s[r.value]) && forall j :: 0 <= j < r.value ==> !p(s[j])
  {
    if |s| == 0 then None
    else if p(s[0]) then Some(0)
    else match FindIndex(s[1..], p)
      case None => None
      case Some(k) => Some(k + 1)
  }

  /** The first element of `s` that satisfies `p`, or `None` when there is none. */
  function Find<T>(s: seq<T>, p: T -> bool): (r: Option<T>)
    ensures r.None? <==> forall i :: 0 <= i < |s| ==> !p(s[i])
    ensures r.Some? ==> exists i :: 0 <= i < |s| && s[i] == r.value && p(s[i]) && forall j :: 0 <= j < i ==> !p(s[j])
  {
    match FindIndex(s, p)
    case None => None
    case Some(i) => Some(s[i])
  }

  /** The elements whose key is `k`. */
  function HasKey<T, K(==)>(key: T -> K, k: K): T -> bool
  {
    x => key(x) == k
  }

  /**
   * `m` groups `s` by `key`: every element's key is present, and each
   * present key maps to the (non-empty) elements with that key in their
   * original order.
   */
  ghost predicate IsGrouping<T(!new), K(!new)>(m: map<K, seq<T>>, s: seq<T>, key: T -> K)
  {
    && (forall x :: x in s ==> key(x) in m)
    && (forall k :: k in m ==> m[k] != [] && m[k] == Filter(s, HasKey(key, k)))
  }

  /**
   * In a grouping every element is in the group of its key and in no other;
   * no group is empty; each group keeps the original order and every
   * occurrence of its elements.
   */
  lemma GroupingPartitions<T(!new), K(!new)>(m: map<K, seq<T>>, s: seq<T>, key: T -> K)
    requires IsGrouping(m, s, key)
    ensures forall x :: x in s ==> key(x) in m && x in m[key(x)]
    ensures forall k, x :: k in m && x in m[k] ==> key(x) == k
    ensures forall k :: k in m ==> |m[k]| > 0 && IsSubsequence(m[k], s)
    ensures forall k, x :: k in m && key(x) == k ==> multiset(m[k])[x] == multiset(s)[x]
  {
    forall k | k in m
      ensures IsSubsequence(m[k], s)
    {
      FilterIsSubsequence(s, HasKey(key, k));
    }
    forall k | k in m
      ensures forall x :: key(x) == k ==> multiset(m[k])[x] == multiset(s)[x]
    {
      FilterCounts(s, HasKey(key, k));
    }
  }

  /** Appending one element extends the group of its own key and no other. */
  lemma {:induction false} FilterSnoc<T(!new), K(!new)>(s: seq<T>, x: T, key: T -> K, k: K)
    ensures Filter(s + [x], HasKey(key, k)) == Filter(s, HasKey(key, k)) + (if key(x) == k then [x] else [])
  {
    FilterAppend(s, [x], HasKey(key, k));
    assert [x][1..] == [];
  }

  /** Appending an element to its key's group (creating the group if needed) keeps the grouping exact. */
  lemma {:induction false} GroupingSnoc<T(!new), K(!new)>(m: map<K, seq<T>>, s: seq<T>, x: T, key: T -> K)
    requires IsGrouping(m, s, key)
    ensures IsGrouping(m[key(x) := (if key(x) in m then m[key(x)] else []) + [x]], s + [x], key)
  {
    var k := key(x);
    var m' := m[k := (if k in m then m[k] else []) + [x]];
    forall d | d in m'
      ensures m'[d] != [] && m'[d] == Filter(s + [x], HasKey(key, d))
    {
      FilterSnoc(s, x, key, d);
      if d == k && k !in m {
        assert forall i :: 0 <= i < |s| ==> s[i] in s;
        FilterNone(s, HasKey(key, k));
      }
    }
  }

  /** Taking one more element of a prefix appends that element. */
  lemma PrefixSnoc<T>(s: seq<T>, i: nat)
    requires i < |s|
    ensures s[..i + 1] == s[..i] + [s[i]]
  {
  }
}
