/**
 * The array combinators the application is written with (`filter`, `map`,
 * `reduce`, `findIndex`), as functions on sequences with the facts the rest
 * of the model needs about them.
 */
module Seqs {

  /** `r` is obtained from `s` by deleting elements, keeping the order of the rest. */
  ghost predicate IsSubsequence<T>(r: seq<T>, s: seq<T>)
    decreases |s|
  {
    if r == [] then true
    else if s == [] then false
    else (r[0] == s[0] && IsSubsequence(r[1..], s[1..])) || IsSubsequence(r, s[1..])
  }

  /** `Array.prototype.filter`: the elements of `s` that satisfy `p`, in order. */
  function Filter<T(!new)>(s: seq<T>, p: T -> bool): (r: seq<T>)
    ensures |r| <= |s|
    ensures forall x :: x in r <==> x in s && p(x)
  {
    if s == [] then []
    else (if p(s[0]) then [s[0]] else []) + Filter(s[1..], p)
  }

  lemma {:induction false} FilterIsSubsequence<T(!new)>(s: seq<T>, p: T -> bool)
    ensures IsSubsequence(Filter(s, p), s)
  {
    if s != [] {
      FilterIsSubsequence(s[1..], p);
      var rest := Filter(s[1..], p);
      if p(s[0]) {
        assert Filter(s, p) == [s[0]] + rest;
        assert ([s[0]] + rest)[1..] == rest;
      } else {
        assert Filter(s, p) == rest;
        // the head of `rest` satisfies p, so it is not s[0]
        assert rest != [] ==> rest[0] in rest && rest[0] != s[0];
      }
    }
  }

  /** A predicate that holds of every element keeps the whole sequence. */
  lemma {:induction false} FilterAll<T(!new)>(s: seq<T>, p: T -> bool)
    requires forall i :: 0 <= i < |s| ==> p(s[i])
    ensures Filter(s, p) == s
  {
    if s != [] {
      FilterAll(s[1..], p);
      assert [s[0]] + s[1..] == s;
    }
  }

  lemma {:induction false} FilterConcat<T(!new)>(a: seq<T>, b: seq<T>, p: T -> bool)
    ensures Filter(a + b, p) == Filter(a, p) + Filter(b, p)
  {
    if a == [] {
      assert a + b == b;
    } else {
      assert (a + b)[0] == a[0];
      assert (a + b)[1..] == a[1..] + b;
      FilterConcat(a[1..], b, p);
    }
  }

  /** Two complementary predicates split a sequence: the two counts add up to its length. */
  lemma {:induction false} FilterPartition<T(!new)>(s: seq<T>, p: T -> bool, q: T -> bool)
    requires forall i :: 0 <= i < |s| ==> q(s[i]) == !p(s[i])
    ensures |Filter(s, p)| + |Filter(s, q)| == |s|
  {
    if s != [] {
      FilterPartition(s[1..], p, q);
    }
  }

  /** `Array.prototype.map` restricted to the elements `m` selects; the others are kept. */
  function MapWhere<T>(s: seq<T>, m: T -> bool, f: T -> T): (r: seq<T>)
    ensures |r| == |s|
    ensures forall i :: 0 <= i < |s| ==> r[i] == if m(s[i]) then f(s[i]) else s[i]
  {
    if s == [] then []
    else [if m(s[0]) then f(s[0]) else s[0]] + MapWhere(s[1..], m, f)
  }

  /** When exactly one element matches, `MapWhere` is an update at its position. */
  lemma MapWhereSingle<T>(s: seq<T>, m: T -> bool, f: T -> T, k: int)
    requires 0 <= k < |s| && m(s[k])
    requires forall i :: 0 <= i < |s| && i != k ==> !m(s[i])
    ensures MapWhere(s, m, f) == s[k := f(s[k])]
  {
    var r := MapWhere(s, m, f);
    assert forall i :: 0 <= i < |s| ==> r[i] == s[k := f(s[k])][i];
  }

  /** `Array.prototype.reduce((sum, x) => sum + f(x), 0)`. */
  function SumOf<T>(s: seq<T>, f: T -> real): (r: real)
    ensures |s| == 1 ==> r == f(s[0])
  {
    if s == [] then 0.0 else f(s[0]) + SumOf(s[1..], f)
  }

  /** A sum of terms none of which is negative is not negative. */
  lemma {:induction false} SumNonNegative<T>(s: seq<T>, f: T -> real)
    ensures (forall i :: 0 <= i < |s| ==> f(s[i]) >= 0.0) ==> SumOf(s, f) >= 0.0
  {
    if s != [] && forall i :: 0 <= i < |s| ==> f(s[i]) >= 0.0 {
      assert forall i :: 0 <= i < |s[1..]| ==> s[1..][i] == s[i + 1];
      SumNonNegative(s[1..], f);
    }
  }

  lemma {:induction false} SumConcat<T>(a: seq<T>, b: seq<T>, f: T -> real)
    ensures SumOf(a + b, f) == SumOf(a, f) + SumOf(b, f)
  {
    if a == [] {
      assert a + b == b;
    } else {
      assert (a + b)[0] == a[0];
      assert (a + b)[1..] == a[1..] + b;
      SumConcat(a[1..], b, f);
    }
  }

  /** Changing one element changes the sum by the difference of the two terms. */
  lemma {:induction false} SumUpdate<T>(s: seq<T>, k: nat, x: T, f: T -> real)
    requires k < |s|
    ensures SumOf(s[k := x], f) == SumOf(s, f) - f(s[k]) + f(x)
  {
    if k > 0 {
      SumUpdate(s[1..], k - 1, x, f);
      assert s[k := x][1..] == s[1..][k - 1 := x];
    }
  }

  /** When every element's `h` is its `f` minus its `g`, the sums are related the same way. */
  lemma {:induction false} SumDifference<T>(s: seq<T>, f: T -> real, g: T -> real, h: T -> real)
    requires forall i :: 0 <= i < |s| ==> h(s[i]) == f(s[i]) - g(s[i])
    ensures SumOf(s, h) == SumOf(s, f) - SumOf(s, g)
  {
    if s != [] {
      SumDifference(s[1..], f, g, h);
    }
  }

  /** `Array.prototype.findIndex`: the first position whose element satisfies `m`, or -1. */
  function FirstIndex<T>(s: seq<T>, m: T -> bool): (r: int)
    ensures -1 <= r < |s|
    ensures r == -1 <==> forall i :: 0 <= i < |s| ==> !m(s[i])
    ensures 0 <= r ==> m(s[r]) && forall j :: 0 <= j < r ==> !m(s[j])
  {
    if s == [] then -1
    else if m(s[0]) then 0
    else
      var k := FirstIndex(s[1..], m);
      if k == -1 then -1 else k + 1
  }

  /** The `findIndex` loop itself. */
  method FindIndex<T>(s: seq<T>, m: T -> bool) returns (index: int)
    ensures index == FirstIndex(s, m)
  {
    var i := 0;
    while i < |s|
      invariant 0 <= i <= |s|
      invariant forall j :: 0 <= j < i ==> !m(s[j])
    {
      if m(s[i]) {
        return i;
      }
      i := i + 1;
    }
    return -1;
  }

  /** Replace the first element `m` selects by its image under `f`; keep everything else. */
  function ReplaceFirst<T>(s: seq<T>, m: T -> bool, f: T -> T): (r: seq<T>)
    ensures |r| == |s|
  {
    if s == [] then []
    else if m(s[0]) then [f(s[0])] + s[1..]
    else [s[0]] + ReplaceFirst(s[1..], m, f)
  }

  /** Replacing the first match is the same as assigning at the index `findIndex` returns. */
  lemma {:induction false} ReplaceFirstAt<T>(s: seq<T>, m: T -> bool, f: T -> T)
    requires FirstIndex(s, m) != -1
    ensures ReplaceFirst(s, m, f) == s[FirstIndex(s, m) := f(s[FirstIndex(s, m)])]
  {
    var k := FirstIndex(s, m);
    if m(s[0]) {
      assert k == 0;
      assert [f(s[0])] + s[1..] == s[0 := f(s[0])];
    } else {
      var t := s[1..];
      ReplaceFirstAt(t, m, f);
      assert FirstIndex(t, m) == k - 1;
      assert [s[0]] + t[k - 1 := f(t[k - 1])] == s[k := f(s[k])];
    }
  }

  lemma {:induction false} ReplaceFirstAbsent<T>(s: seq<T>, m: T -> bool, f: T -> T)
    requires forall i :: 0 <= i < |s| ==> !m(s[i])
    ensures ReplaceFirst(s, m, f) == s
  {
    if s != [] {
      ReplaceFirstAbsent(s[1..], m, f);
      assert [s[0]] + s[1..] == s;
    }
  }

  /** No two elements of `s` share a key. */
  predicate KeysDistinct<T>(s: seq<T>, key: T -> string)
  {
    forall i, j :: 0 <= i < j < |s| ==> key(s[i]) != key(s[j])
  }

  lemma TailKeepsDistinct<T>(s: seq<T>, key: T -> string)
    requires s != [] && KeysDistinct(s, key)
    ensures KeysDistinct(s[1..], key)
  {
    var tail := s[1..];
    forall i, j | 0 <= i < j < |tail| ensures key(tail[i]) != key(tail[j]) {
      assert tail[i] == s[i + 1] && tail[j] == s[j + 1];
    }
  }

  lemma HeadKeyFresh<T>(s: seq<T>, key: T -> string)
    requires s != [] && KeysDistinct(s, key)
    ensures forall x :: x in s[1..] ==> key(x) != key(s[0])
  {
    forall x | x in s[1..] ensures key(x) != key(s[0]) {
      var k :| 0 <= k < |s| - 1 && s[1..][k] == x;
      assert s[k + 1] == x;
    }
  }

  lemma ConsKeepsDistinct<T>(h: T, r: seq<T>, key: T -> string)
    requires KeysDistinct(r, key)
    requires forall x :: x in r ==> key(x) != key(h)
    ensures KeysDistinct([h] + r, key)
  {
    var t := [h] + r;
    forall i, j | 0 <= i < j < |t| ensures key(t[i]) != key(t[j]) {
      assert t[j] == r[j - 1] && r[j - 1] in r;
      if 0 < i {
        assert t[i] == r[i - 1];
      }
    }
  }

  lemma {:induction false} FilterKeepsDistinct<T(!new)>(s: seq<T>, key: T -> string, p: T -> bool)
    requires KeysDistinct(s, key)
    ensures KeysDistinct(Filter(s, p), key)
  {
    if s != [] {
      var tail := s[1..];
      TailKeepsDistinct(s, key);
      FilterKeepsDistinct(tail, key, p);
      if p(s[0]) {
        var rest := Filter(tail, p);
        assert Filter(s, p) == [s[0]] + rest;
        HeadKeyFresh(s, key);
        ConsKeepsDistinct(s[0], rest, key);
      }
    }
  }

  lemma MapWhereKey<T>(s: seq<T>, key: T -> string, m: T -> bool, f: T -> T, i: int)
    requires 0 <= i < |s| && key(f(s[i])) == key(s[i])
    ensures key(MapWhere(s, m, f)[i]) == key(s[i])
  {
    if m(s[i]) {
      assert MapWhere(s, m, f)[i] == f(s[i]);
    } else {
      assert MapWhere(s, m, f)[i] == s[i];
    }
  }

  /** Keys that `f` leaves alone stay distinct under `MapWhere`. */
  lemma MapWhereKeepsDistinct<T>(s: seq<T>, key: T -> string, m: T -> bool, f: T -> T)
    requires KeysDistinct(s, key)
    requires forall i :: 0 <= i < |s| ==> key(f(s[i])) == key(s[i])
    ensures KeysDistinct(MapWhere(s, m, f), key)
  {
    var r := MapWhere(s, m, f);
    forall i, j | 0 <= i < j < |r| ensures key(r[i]) != key(r[j]) {
      MapWhereKey(s, key, m, f, i);
      MapWhereKey(s, key, m, f, j);
    }
  }
}
