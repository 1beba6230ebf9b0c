/**
 * Generic sequence functions behind the aggregation passes: filtering by a key,
 * left-to-right sums, dictionary key order, and regrouping by key.
 * Keys and weights are passed as named functions (Types.DateOf, Types.AmountOf, ...).
 */
module Seqs {
  import opened Types

  ghost predicate Distinct<T>(s: seq<T>) {
    forall i, j :: 0 <= i < j < |s| ==> s[i] != s[j]
  }

  /** No two elements of `s` share a key. */
  ghost predicate DistinctBy<T, K>(s: seq<T>, key: T -> K) {
    forall i, j :: 0 <= i < j < |s| ==> key(s[i]) != key(s[j])
  }

  /** The prefix one element longer is the prefix followed by that element. */
  lemma PrefixSnoc<T>(s: seq<T>, i: int)
    requires 0 <= i < |s|
    ensures s[..i + 1] == s[..i] + [s[i]]
  {
  }

  /** A non-empty sequence is its prefix followed by its last element. */
  lemma LastSplit<T>(s: seq<T>)
    requires s != []
    ensures s == s[..|s| - 1] + [s[|s| - 1]]
  {
  }

  lemma PrefixAll<T>(s: seq<T>)
    ensures s[..|s|] == s
  {
  }

  /** The elements of `s` whose key is `k`, in their order in `s` (Array.prototype.filter). */
  function WhereKey<T, K(==)>(s: seq<T>, key: T -> K, k: K): (r: seq<T>)
    ensures |r| <= |s|
  {
    if s == [] then []
    else
      var rest := WhereKey(s[..|s| - 1], key, k);
      if key(s[|s| - 1]) == k then rest + [s[|s| - 1]] else rest
  }

  /** The filter keeps exactly the elements whose key is `k`. */
  lemma {:induction false} WhereKeyMembers<T, K>(s: seq<T>, key: T -> K, k: K)
    ensures forall x :: x in WhereKey(s, key, k) <==> x in s && key(x) == k
  {
    if s != [] {
      WhereKeyMembers(s[..|s| - 1], key, k);
      LastSplit(s);
    }
  }

  lemma {:induction false} WhereKeyConcat<T(!new), K>(a: seq<T>, b: seq<T>, key: T -> K, k: K)
    ensures WhereKey(a + b, key, k) == WhereKey(a, key, k) + WhereKey(b, key, k)
  {
    if b == [] {
      assert a + b == a;
    } else {
      var b' := b[..|b| - 1];
      assert (a + b)[..|a + b| - 1] == a + b';
      assert (a + b)[|a + b| - 1] == b[|b| - 1];
      WhereKeyConcat(a, b', key, k);
    }
  }

  /** Appending one element extends the filtered result by that element when its key matches. */
  lemma WhereKeySnoc<T(!new), K>(s: seq<T>, x: T, key: T -> K, k: K)
    ensures WhereKey(s + [x], key, k) == WhereKey(s, key, k) + (if key(x) == k then [x] else [])
  {
    assert (s + [x])[..|s + [x]| - 1] == s;
  }

  lemma WhereKeyAbsent<T(!new), K>(s: seq<T>, key: T -> K, k: K)
    requires forall x :: x in s ==> key(x) != k
    ensures WhereKey(s, key, k) == []
  {
  }

  /** The distinct keys of `s` in order of first occurrence: the key order of a dictionary filled from `s`. */
  function KeysInOrder<T(!new), K(==)>(s: seq<T>, key: T -> K): (r: seq<K>)
    ensures Distinct(r)
    ensures forall x :: x in s ==> key(x) in r
    ensures forall k :: k in r ==> exists x :: x in s && key(x) == k
  {
    if s == [] then []
    else
      assert s == s[..|s| - 1] + [s[|s| - 1]];
      var rest := KeysInOrder(s[..|s| - 1], key);
      var k := key(s[|s| - 1]);
      if k in rest then rest else rest + [k]
  }

  /** Appending an element adds its key at the end, unless the key is already there. */
  lemma KeysInOrderSnoc<T(!new), K>(s: seq<T>, x: T, key: T -> K)
    ensures KeysInOrder(s + [x], key)
         == if key(x) in KeysInOrder(s, key) then KeysInOrder(s, key) else KeysInOrder(s, key) + [key(x)]
  {
    assert (s + [x])[..|s + [x]| - 1] == s;
  }

  lemma {:induction false} KeysInOrderEmpty<T(!new), K>(s: seq<T>, key: T -> K)
    ensures KeysInOrder(s, key) == [] <==> s == []
  {
    if s != [] {
      assert key(s[0]) in KeysInOrder(s, key);
    }
  }

  /** Left-to-right sum of the weights of the elements of `s` (the fold of `reduce` and `forEach`). */
  function SumBy<T>(s: seq<T>, w: T -> real): real
  {
    if s == [] then 0.0 else SumBy(s[..|s| - 1], w) + w(s[|s| - 1])
  }

  lemma SumBySnoc<T>(s: seq<T>, x: T, w: T -> real)
    ensures SumBy(s + [x], w) == SumBy(s, w) + w(x)
  {
    assert (s + [x])[..|s + [x]| - 1] == s;
  }

  lemma {:induction false} SumByConcat<T>(a: seq<T>, b: seq<T>, w: T -> real)
    ensures SumBy(a + b, w) == SumBy(a, w) + SumBy(b, w)
  {
    if b == [] {
      assert a + b == a;
    } else {
      var b' := b[..|b| - 1];
      assert (a + b)[..|a + b| - 1] == a + b';
      assert (a + b)[|a + b| - 1] == b[|b| - 1];
      SumByConcat(a, b', w);
    }
  }

  /** The multiset of a non-empty sequence is that of its prefix plus its last element. */
  lemma MultisetLast<T>(s: seq<T>)
    requires s != []
    ensures multiset(s) == multiset(s[..|s| - 1]) + multiset{s[|s| - 1]}
  {
    LastSplit(s);
  }

  /** Taking out the element at `i` removes one copy of it from the multiset. */
  lemma MultisetRemoveAt<T>(s: seq<T>, i: int)
    requires 0 <= i < |s|
    ensures multiset(s[..i] + s[i + 1..]) == multiset(s) - multiset{s[i]}
  {
    assert s == s[..i] + [s[i]] + s[i + 1..];
  }

  /** Taking out the element at `i` removes its weight from the sum. */
  lemma SumByRemoveAt<T>(s: seq<T>, i: int, w: T -> real)
    requires 0 <= i < |s|
    ensures SumBy(s, w) == SumBy(s[..i] + s[i + 1..], w) + w(s[i])
  {
    assert s[..i + 1] + s[i + 1..] == s;
    SumByConcat(s[..i + 1], s[i + 1..], w);
    PrefixSnoc(s, i);
    SumBySnoc(s[..i], s[i], w);
    SumByConcat(s[..i], s[i + 1..], w);
  }

  /** A sum does not depend on the order of its terms. */
  lemma {:induction false} SumByPermutation<T>(a: seq<T>, b: seq<T>, w: T -> real)
    requires multiset(a) == multiset(b)
    ensures SumBy(a, w) == SumBy(b, w)
  {
    if a == [] {
      assert |multiset(b)| == 0;
    } else {
      var a', x := a[..|a| - 1], a[|a| - 1];
      MultisetLast(a);
      assert x in multiset(b);
      var i :| 0 <= i < |b| && b[i] == x;
      var rest := b[..i] + b[i + 1..];
      MultisetRemoveAt(b, i);
      SumByRemoveAt(b, i, w);
      SumByPermutation(a', rest, w);
    }
  }

  /** `s` regrouped key by key, following the order of `ks`: the concatenation of the groups. */
  function GroupedByKeys<T(!new), K(==)>(s: seq<T>, key: T -> K, ks: seq<K>): seq<T>
  {
    if ks == [] then [] else GroupedByKeys(s, key, ks[..|ks| - 1]) + WhereKey(s, key, ks[|ks| - 1])
  }

  lemma {:induction false} GroupedByKeysOfEmpty<T(!new), K>(key: T -> K, ks: seq<K>)
    ensures GroupedByKeys([], key, ks) == []
  {
    if ks != [] {
      GroupedByKeysOfEmpty(key, ks[..|ks| - 1]);
    }
  }

  /** Dropping the last key keeps the keys distinct, and `y` is among the keys exactly when it is among the rest or is the last. */
  lemma DistinctLast<K>(ks: seq<K>, y: K)
    requires Distinct(ks) && ks != []
    ensures Distinct(ks[..|ks| - 1])
    ensures y in ks <==> y in ks[..|ks| - 1] || y == ks[|ks| - 1]
    ensures y in ks[..|ks| - 1] ==> y != ks[|ks| - 1]
  {
    var ks' := ks[..|ks| - 1];
    forall i, j | 0 <= i < j < |ks'| ensures ks'[i] != ks'[j] {
      assert ks'[i] == ks[i] && ks'[j] == ks[j];
    }
    if y in ks' {
      var i :| 0 <= i < |ks'| && ks'[i] == y;
      assert ks[i] == y;
    }
    LastSplit(ks);
  }

  lemma {:induction false} GroupedByKeysSnoc<T(!new), K>(s: seq<T>, x: T, key: T -> K, ks: seq<K>)
    requires Distinct(ks)
    ensures multiset(GroupedByKeys(s + [x], key, ks))
         == multiset(GroupedByKeys(s, key, ks)) + (if key(x) in ks then multiset{x} else multiset{})
  {
    if ks != [] {
      var ks', k := ks[..|ks| - 1], ks[|ks| - 1];
      DistinctLast(ks, key(x));
      GroupedByKeysSnoc(s, x, key, ks');
      WhereKeySnoc(s, x, key, k);
      assert multiset(GroupedByKeys(s + [x], key, ks))
          == multiset(GroupedByKeys(s + [x], key, ks')) + multiset(WhereKey(s + [x], key, k));
      assert multiset(GroupedByKeys(s, key, ks))
          == multiset(GroupedByKeys(s, key, ks')) + multiset(WhereKey(s, key, k));
    }
  }

  /** Regrouping by distinct keys that cover every element loses and duplicates nothing. */
  lemma {:induction false} PartitionByKeys<T(!new), K>(s: seq<T>, key: T -> K, ks: seq<K>)
    requires Distinct(ks)
    requires forall x :: x in s ==> key(x) in ks
    ensures multiset(GroupedByKeys(s, key, ks)) == multiset(s)
  {
    if s == [] {
      GroupedByKeysOfEmpty(key, ks);
    } else {
      var p, x := s[..|s| - 1], s[|s| - 1];
      LastSplit(s);
      assert forall y :: y in p ==> y in s;
      PartitionByKeys(p, key, ks);
      GroupedByKeysSnoc(p, x, key, ks);
    }
  }

  /** Two different positions of `a` hold the elements at positions `i` and `j` of its permutation `b`. */
  lemma TwoPositions<T>(a: seq<T>, b: seq<T>, i: int, j: int) returns (p: int, q: int)
    requires multiset(a) == multiset(b)
    requires 0 <= i < j < |b|
    ensures 0 <= p < |a| && 0 <= q < |a| && p != q
    ensures a[p] == b[i] && a[q] == b[j]
  {
    assert b[i] in multiset(b);
    p :| 0 <= p < |a| && a[p] == b[i];
    var a', b' := a[..p] + a[p + 1..], b[..i] + b[i + 1..];
    MultisetRemoveAt(a, p);
    MultisetRemoveAt(b, i);
    assert b'[j - 1] == b[j];
    assert b[j] in multiset(a');
    var m :| 0 <= m < |a'| && a'[m] == b[j];
    if m < p {
      q := m;
      assert a'[m] == a[m];
    } else {
      q := m + 1;
      assert a'[m] == a[m + 1];
    }
  }

  /** Distinct keys stay distinct under any permutation. */
  lemma DistinctByPermutation<T, K>(a: seq<T>, b: seq<T>, key: T -> K)
    requires multiset(a) == multiset(b)
    requires DistinctBy(a, key)
    ensures DistinctBy(b, key)
  {
    forall i, j | 0 <= i < j < |b| ensures key(b[i]) != key(b[j]) {
      var p, q := TwoPositions(a, b, i, j);
      if p < q {
        assert key(a[p]) != key(a[q]);
      } else {
        assert key(a[q]) != key(a[p]);
      }
    }
  }

  /** The first element of `s` whose key is `k` (Array.prototype.find), or None. */
  function FindFirst<T(!new), K(==)>(s: seq<T>, key: T -> K, k: K): (r: Option<T>)
    ensures r.None? <==> forall i :: 0 <= i < |s| ==> key(s[i]) != k
    ensures r.Some? ==> exists i :: 0 <= i < |s| && s[i] == r.value && key(s[i]) == k &&
                                    forall j :: 0 <= j < i ==> key(s[j]) != k
  {
    if s == [] then None
    else if key(s[0]) == k then Some(s[0])
    else
      var r := FindFirst(s[1..], key, k);
      assert forall i :: 1 <= i < |s| ==> s[i] == s[1..][i - 1];
      r
  }
}
