/**
  Dicts of lists filled by a loop: `d.setdefault(key(x), []).append(x)` for
  each `x` in a list. The dict maps each key to the elements with that key in
  their original order; its keys, in insertion order, are the keys in order of
  first appearance.
 */
module Buckets {
  import opened Wrappers
  import opened Seqs

  /** `d.get(k, [])` */
  function BucketOf<K, T>(m: map<K, seq<T>>, k: K): seq<T> {
    if k in m then m[k] else []
  }

  /** `if k not in d: d[k] = []` followed by `d[k].append(x)` */
  function AddTo<K, T>(m: map<K, seq<T>>, k: K, x: T): (r: map<K, seq<T>>)
    ensures r.Keys == m.Keys + {k}
    ensures BucketOf(r, k) == BucketOf(m, k) + [x]
  {
    m[k := BucketOf(m, k) + [x]]
  }

  /** `d.setdefault(k, []).append(x)`, spelled as the code does: create the empty list, then append. */
  method AppendTo<K, T>(m: map<K, seq<T>>, k: K, x: T) returns (r: map<K, seq<T>>)
    ensures r == AddTo(m, k, x)
  {
    r := m;
    if k !in r {
      r := r[k := []];
    }
    r := r[k := r[k] + [x]];
  }

  /** The dict the loop builds from an empty one. */
  function GroupBy<K, T>(s: seq<T>, key: T -> K): map<K, seq<T>> {
    if s == [] then map[]
    else AddTo(GroupBy(s[..|s| - 1], key), key(s[|s| - 1]), s[|s| - 1])
  }

  /** Appending one element to the input adds it to its key's bucket. */
  lemma GroupByAppend<K, T>(s: seq<T>, key: T -> K, x: T)
    ensures GroupBy(s + [x], key) == AddTo(GroupBy(s, key), key(x), x)
  {
    assert (s + [x])[..|s|] == s;
  }

  /** One more turn of the loop: the dict and its key order after the element at `i`. */
  lemma GroupByStep<K, T>(s: seq<T>, key: T -> K, i: nat)
    requires i < |s|
    ensures GroupBy(s[..i + 1], key) == AddTo(GroupBy(s[..i], key), key(s[i]), s[i])
    ensures KeyOrder(s[..i + 1], key) ==
      if key(s[i]) in KeyOrder(s[..i], key) then KeyOrder(s[..i], key) else KeyOrder(s[..i], key) + [key(s[i])]
  {
    assert s[..i + 1][..i] == s[..i];
  }

  /** The elements of `s` whose key is `k`, in their order in `s`. */
  function Bucket<K(==), T>(s: seq<T>, key: T -> K, k: K): seq<T> {
    Filter(s, x => key(x) == k)
  }

  /** The dict's keys in insertion order. */
  function KeyOrder<K(==), T>(s: seq<T>, key: T -> K): seq<K> {
    if s == [] then []
    else
      var ks := KeyOrder(s[..|s| - 1], key);
      if key(s[|s| - 1]) in ks then ks else ks + [key(s[|s| - 1])]
  }

  /** Every bucket holds exactly the elements with its key, in order; the keys are those that occur. */
  lemma {:induction false} GroupByBuckets<K(!new), T>(s: seq<T>, key: T -> K)
    ensures forall k :: BucketOf(GroupBy(s, key), k) == Bucket(s, key, k)
    ensures forall k :: k in GroupBy(s, key) <==> Bucket(s, key, k) != []
  {
    if s != [] {
      GroupByBuckets(s[..|s| - 1], key);
    }
  }

  /** Each bucket is a subsequence of the input. */
  lemma GroupBySubsequence<K(!new), T>(s: seq<T>, key: T -> K, k: K)
    ensures IsSubsequence(BucketOf(GroupBy(s, key), k), s)
  {
    GroupByBuckets(s, key);
    FilterIsSubsequence(s, y => key(y) == k);
  }

  /** An element lies in the bucket of a key iff it has that key; each bucket keeps the input order. */
  lemma GroupByPlacement<K(!new), T>(s: seq<T>, key: T -> K, x: T, k: K)
    requires x in s
    ensures x in BucketOf(GroupBy(s, key), k) <==> key(x) == k
    ensures IsSubsequence(BucketOf(GroupBy(s, key), k), s)
  {
    GroupByBuckets(s, key);
    GroupBySubsequence(s, key, k);
  }

  /** The insertion-ordered keys are distinct and are exactly the dict's keys. */
  lemma {:induction false} KeyOrderKeys<K(!new), T>(s: seq<T>, key: T -> K)
    ensures Distinct(KeyOrder(s, key))
    ensures forall k :: k in KeyOrder(s, key) <==> k in GroupBy(s, key)
  {
    if s != [] {
      KeyOrderKeys(s[..|s| - 1], key);
    }
  }

  /** The keys in order are exactly the keys of the elements. */
  lemma {:induction false} KeyOrderCovers<K(!new), T>(s: seq<T>, key: T -> K)
    ensures forall r :: 0 <= r < |s| ==> key(s[r]) in KeyOrder(s, key)
    ensures forall k :: k in KeyOrder(s, key) ==> exists p :: 0 <= p < |s| && key(s[p]) == k
  {
    if s != [] {
      var s' := s[..|s| - 1];
      KeyOrderCovers(s', key);
      forall k | k in KeyOrder(s, key) ensures exists p :: 0 <= p < |s| && key(s[p]) == k {
        if k in KeyOrder(s', key) {
          var p :| 0 <= p < |s'| && key(s'[p]) == k;
          assert key(s[p]) == k;
        } else {
          assert key(s[|s| - 1]) == k;
        }
      }
    }
  }

  /** A key enters the order at the first element that has it: earlier keys first appear earlier. */
  lemma {:induction false} KeyOrderFirstAppearance<K(!new), T>(s: seq<T>, key: T -> K, i: int, j: int)
    requires 0 <= i < j < |KeyOrder(s, key)|
    ensures exists p, q ::
      && 0 <= p < q < |s| && key(s[p]) == KeyOrder(s, key)[i] && key(s[q]) == KeyOrder(s, key)[j]
      && (forall r :: 0 <= r < p ==> key(s[r]) != KeyOrder(s, key)[j])
  {
    var s' := s[..|s| - 1];
    var ks' := KeyOrder(s', key);
    if j < |ks'| {
      KeyOrderFirstAppearance(s', key, i, j);
      var p, q :| 0 <= p < q < |s'| && key(s'[p]) == ks'[i] && key(s'[q]) == ks'[j]
        && forall r :: 0 <= r < p ==> key(s'[r]) != ks'[j];
      assert key(s[p]) == ks'[i] && key(s[q]) == ks'[j];
    } else {
      var k := key(s[|s| - 1]);
      assert KeyOrder(s, key)[j] == k && k !in ks';
      assert i < |ks'| && ks'[i] in ks';
      KeyOrderCovers(s', key);
      var p :| 0 <= p < |s'| && key(s'[p]) == ks'[i];
      assert forall r :: 0 <= r < p ==> key(s'[r]) in ks';
      assert key(s[p]) == ks'[i];
    }
  }

  /** The total size of the buckets of `ks`. */
  function SumSizes<K, T>(m: map<K, seq<T>>, ks: seq<K>): nat {
    if ks == [] then 0 else SumSizes(m, ks[..|ks| - 1]) + |BucketOf(m, ks[|ks| - 1])|
  }

  lemma {:induction false} SumSizesBump<K(!new), T>(m: map<K, seq<T>>, m': map<K, seq<T>>, ks: seq<K>, k: K)
    requires Distinct(ks)
    requires forall j :: j != k ==> BucketOf(m', j) == BucketOf(m, j)
    requires |BucketOf(m', k)| == |BucketOf(m, k)| + 1
    ensures SumSizes(m', ks) == SumSizes(m, ks) + (if k in ks then 1 else 0)
  {
    if ks != [] {
      var ks' := ks[..|ks| - 1];
      assert Distinct(ks');
      SumSizesBump(m, m', ks', k);
      assert ks == ks' + [ks[|ks| - 1]];
      if ks[|ks| - 1] == k {
        assert k !in ks';
      }
    }
  }

  /** Every element lands in exactly one bucket: the bucket sizes add up to the input's length. */
  lemma {:induction false} BucketSizesSum<K(!new), T>(s: seq<T>, key: T -> K)
    ensures SumSizes(GroupBy(s, key), KeyOrder(s, key)) == |s|
  {
    if s != [] {
      var s' := s[..|s| - 1];
      var x := s[|s| - 1];
      var m' := GroupBy(s', key);
      var ks' := KeyOrder(s', key);
      BucketSizesSum(s', key);
      KeyOrderKeys(s', key);
      SumSizesBump(m', GroupBy(s, key), ks', key(x));
      if key(x) !in ks' {
        assert key(x) !in m' && BucketOf(m', key(x)) == [];
        assert KeyOrder(s, key)[..|ks'|] == ks';
      }
    }
  }

  /** `d[k] = v` for each element that gives a pair `(k, v)`, in order, starting from an empty dict. */
  function LastWrites<S, K, V>(s: seq<S>, w: S -> Option<(K, V)>): map<K, V> {
    if s == [] then map[]
    else
      var m := LastWrites(s[..|s| - 1], w);
      var x := w(s[|s| - 1]);
      if x.Some? then m[x.value.0 := x.value.1] else m
  }

  /** A key is present iff some element writes it. */
  lemma {:induction false} LastWritesKeys<S, K, V>(s: seq<S>, w: S -> Option<(K, V)>, k: K)
    ensures k in LastWrites(s, w) <==> exists i :: 0 <= i < |s| && w(s[i]).Some? && w(s[i]).value.0 == k
  {
    if s != [] {
      var s' := s[..|s| - 1];
      LastWritesKeys(s', w, k);
      assert forall i :: 0 <= i < |s'| ==> s'[i] == s[i];
    }
  }

  /** The value kept for a key is the one its last writer gave: no later element writes that key. */
  lemma {:induction false} LastWritesValue<S, K, V>(s: seq<S>, w: S -> Option<(K, V)>, k: K)
    requires k in LastWrites(s, w)
    ensures exists i :: (&& 0 <= i < |s| && w(s[i]) == Some((k, LastWrites(s, w)[k]))
      && forall j :: i < j < |s| ==> !(w(s[j]).Some? && w(s[j]).value.0 == k))
  {
    var n := |s| - 1;
    var s' := s[..n];
    var x := w(s[n]);
    if x.Some? && x.value.0 == k {
      assert w(s[n]) == Some((k, LastWrites(s, w)[k]));
    } else {
      LastWritesValue(s', w, k);
      var i :| (&& 0 <= i < |s'| && w(s'[i]) == Some((k, LastWrites(s', w)[k]))
        && forall j :: i < j < |s'| ==> !(w(s'[j]).Some? && w(s'[j]).value.0 == k));
      assert s'[i] == s[i];
      assert forall j :: i < j < |s'| ==> s'[j] == s[j];
    }
  }
}
