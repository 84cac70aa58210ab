/**
  Python's ordering of `str` values (code point by code point, a proper
  prefix first) and `sorted()` on a list of strings.
 */
module StrOrder {

  /** `a <= b` on str. */
  predicate LexLe(a: string, b: string)
    decreases |a|
  {
    a == [] || (b != [] && (a[0] < b[0] || (a[0] == b[0] && LexLe(a[1..], b[1..]))))
  }

  lemma {:induction false} LexLeReflexive(a: string)
    ensures LexLe(a, a)
    decreases |a|
  {
    if a != [] {
      LexLeReflexive(a[1..]);
    }
  }

  lemma {:induction false} LexLeTotal(a: string, b: string)
    ensures LexLe(a, b) || LexLe(b, a)
    decreases |a|
  {
    if a != [] && b != [] && a[0] == b[0] {
      LexLeTotal(a[1..], b[1..]);
    }
  }

  lemma {:induction false} LexLeAntisymmetric(a: string, b: string)
    requires LexLe(a, b) && LexLe(b, a)
    ensures a == b
    decreases |a|
  {
    if a != [] && b != [] {
      LexLeAntisymmetric(a[1..], b[1..]);
      assert a == [a[0]] + a[1..] && b == [b[0]] + b[1..];
    }
  }

  lemma {:induction false} LexLeTransitive(a: string, b: string, c: string)
    requires LexLe(a, b) && LexLe(b, c)
    ensures LexLe(a, c)
    decreases |a|
  {
    if a != [] && b != [] && c != [] && a[0] == b[0] && b[0] == c[0] {
      LexLeTransitive(a[1..], b[1..], c[1..]);
    }
  }

  predicate SortedStrings(s: seq<string>) {
    forall i, j :: 0 <= i < j < |s| ==> LexLe(s[i], s[j])
  }

  /** Insert `x` after every element not greater than it. */
  function InsertString(t: seq<string>, x: string): (r: seq<string>)
    ensures |r| == |t| + 1
  {
    if t == [] then [x]
    else if LexLe(t[|t| - 1], x) then t + [x]
    else InsertString(t[..|t| - 1], x) + [t[|t| - 1]]
  }

  /** `sorted(s)` */
  function SortStrings(s: seq<string>): (r: seq<string>)
    ensures |r| == |s|
  {
    if s == [] then [] else InsertString(SortStrings(s[..|s| - 1]), s[|s| - 1])
  }

  lemma {:induction false} InsertStringMultiset(t: seq<string>, x: string)
    ensures multiset(InsertString(t, x)) == multiset(t) + multiset{x}
  {
    if t != [] && !LexLe(t[|t| - 1], x) {
      InsertStringMultiset(t[..|t| - 1], x);
      assert t == t[..|t| - 1] + [t[|t| - 1]];
    }
  }

  lemma {:induction false} InsertStringSorted(t: seq<string>, x: string)
    requires SortedStrings(t)
    ensures SortedStrings(InsertString(t, x))
  {
    if t != [] {
      var last := t[|t| - 1];
      if LexLe(last, x) {
        forall i | 0 <= i < |t| ensures LexLe(t[i], x) {
          if i < |t| - 1 {
            LexLeTransitive(t[i], last, x);
          }
        }
      } else {
        LexLeTotal(last, x);
        var t' := t[..|t| - 1];
        InsertStringSorted(t', x);
        InsertStringMultiset(t', x);
        var m := InsertString(t', x);
        forall y | y in m ensures LexLe(y, last) {
          assert y in multiset(m);
          if y != x {
            assert y in multiset(t');
            var i :| 0 <= i < |t'| && t'[i] == y;
            assert t[i] == y;
          }
        }
        var r := m + [last];
        forall i, j | 0 <= i < j < |r| ensures LexLe(r[i], r[j]) {
          if j == |r| - 1 {
            assert r[i] in m;
          }
        }
      }
    }
  }

  /** `sorted` returns its input in ascending order. */
  lemma {:induction false} SortStringsSorted(s: seq<string>)
    ensures SortedStrings(SortStrings(s))
  {
    if s != [] {
      SortStringsSorted(s[..|s| - 1]);
      InsertStringSorted(SortStrings(s[..|s| - 1]), s[|s| - 1]);
    }
  }

  /** `sorted` only reorders. */
  lemma {:induction false} SortStringsPermutation(s: seq<string>)
    ensures multiset(SortStrings(s)) == multiset(s)
  {
    if s != [] {
      SortStringsPermutation(s[..|s| - 1]);
      InsertStringMultiset(SortStrings(s[..|s| - 1]), s[|s| - 1]);
      assert s == s[..|s| - 1] + [s[|s| - 1]];
    }
  }

  lemma SortedLastIsMax(a: seq<string>, y: string)
    requires SortedStrings(a) && y in a
    ensures LexLe(y, a[|a| - 1])
  {
    var i :| 0 <= i < |a| && a[i] == y;
    if i == |a| - 1 {
      LexLeReflexive(y);
    }
  }

  lemma DropLastMultiset(a: seq<string>)
    requires a != []
    ensures multiset(a[..|a| - 1]) == multiset(a) - multiset{a[|a| - 1]}
    ensures SortedStrings(a) ==> SortedStrings(a[..|a| - 1])
  {
    assert a == a[..|a| - 1] + [a[|a| - 1]];
  }

  /** There is only one ascending arrangement of a list: `sorted` is determined by the elements alone. */
  lemma {:induction false} SortedUnique(a: seq<string>, b: seq<string>)
    requires SortedStrings(a) && SortedStrings(b) && multiset(a) == multiset(b)
    ensures a == b
    decreases |a|
  {
    assert |a| == |b| by {
      assert |a| == |multiset(a)| == |b|;
    }
    if a != [] {
      var x := a[|a| - 1];
      var y := b[|b| - 1];
      var a', b' := a[..|a| - 1], b[..|b| - 1];
      assert x == y && SortedStrings(a') && SortedStrings(b') && multiset(a') == multiset(b') by {
        assert y in multiset(a) && x in multiset(b);
        assert y in a && x in b;
        SortedLastIsMax(a, y);
        SortedLastIsMax(b, x);
        LexLeAntisymmetric(x, y);
        DropLastMultiset(a);
        DropLastMultiset(b);
      }
      SortedUnique(a', b');
      assert a == a' + [x];
      assert b == b' + [y];
    }
  }

  /** Sorting a list without duplicates gives a list without duplicates holding the same strings. */
  lemma SortStringsDistinct(s: seq<string>)
    requires forall i, j :: 0 <= i < j < |s| ==> s[i] != s[j]
    ensures var r := SortStrings(s);
      && (forall i, j :: 0 <= i < j < |r| ==> r[i] != r[j])
      && (forall x :: x in r <==> x in s)
  {
    var r := SortStrings(s);
    SortStringsPermutation(s);
    assert forall x :: x in r <==> x in multiset(s);
    forall x | x in s ensures multiset(s)[x] == 1 {
      DistinctCount(s, x);
    }
    forall i, j | 0 <= i < j < |r| ensures r[i] != r[j] {
      if r[i] == r[j] {
        TwiceCount(r, i, j);
        DistinctCount(s, r[i]);
      }
    }
  }

  lemma {:induction false} DistinctCount(s: seq<string>, x: string)
    requires forall i, j :: 0 <= i < j < |s| ==> s[i] != s[j]
    ensures multiset(s)[x] <= 1
  {
    if s != [] {
      var s' := s[..|s| - 1];
      DistinctCount(s', x);
      assert s == s' + [s[|s| - 1]];
      if s[|s| - 1] == x {
        assert x !in s';
      }
    }
  }

  lemma {:induction false} TwiceCount(r: seq<string>, i: int, j: int)
    requires 0 <= i < j < |r| && r[i] == r[j]
    ensures multiset(r)[r[i]] >= 2
  {
    assert r == r[..i] + [r[i]] + r[i + 1..j] + [r[j]] + r[j + 1..];
  }
}
