// A stable sort into non-increasing order of a real-valued key. It is the
// behaviour every sort of the models relies on: Python's list.sort(key=...,
// reverse=True) (stable, reverse keeps ties in order), JavaScript's
// Array.prototype.sort with a comparator (stable since ES2019) and Swift's
// sorted(by: >).

module Sorting {
  predicate NonIncreasing<T>(s: seq<T>, key: T -> real)
  {
    forall a, b :: 0 <= a < b < |s| ==> key(s[a]) >= key(s[b])
  }

  /** The elements of s whose key is v, in their order in s. */
  function WithKey<T>(s: seq<T>, key: T -> real, v: real): (r: seq<T>)
    ensures |r| <= |s|
  {
    if |s| == 0 then []
    else (if key(s[0]) == v then [s[0]] else []) + WithKey(s[1..], key, v)
  }

  /** Puts x after every element whose key is at least x's key. */
  function InsertDesc<T>(acc: seq<T>, x: T, key: T -> real): seq<T>
  {
    if |acc| == 0 then [x]
    else if key(acc[0]) >= key(x) then [acc[0]] + InsertDesc(acc[1..], x, key)
    else [x] + acc
  }

  /** Insertion adds exactly x. */
  lemma {:induction false} InsertDescPerm<T>(acc: seq<T>, x: T, key: T -> real)
    ensures multiset(InsertDesc(acc, x, key)) == multiset(acc) + multiset{x}
  {
    if |acc| > 0 && key(acc[0]) >= key(x) {
      InsertDescPerm(acc[1..], x, key);
      assert acc == [acc[0]] + acc[1..];
    }
  }

  function SortDesc<T>(s: seq<T>, key: T -> real): seq<T>
  {
    if |s| == 0 then []
    else InsertDesc(SortDesc(s[..|s| - 1], key), s[|s| - 1], key)
  }

  /** Sorting is a permutation. */
  lemma {:induction false} SortDescPerm<T>(s: seq<T>, key: T -> real)
    ensures multiset(SortDesc(s, key)) == multiset(s)
  {
    if |s| > 0 {
      SortDescPerm(s[..|s| - 1], key);
      InsertDescPerm(SortDesc(s[..|s| - 1], key), s[|s| - 1], key);
      assert s == s[..|s| - 1] + [s[|s| - 1]];
    }
  }

  lemma {:induction false} WithKeyAppend<T>(a: seq<T>, b: seq<T>, key: T -> real, v: real)
    ensures WithKey(a + b, key, v) == WithKey(a, key, v) + WithKey(b, key, v)
  {
    if |a| == 0 {
      assert a + b == b;
    } else {
      var head := if key(a[0]) == v then [a[0]] else [];
      assert (a + b)[0] == a[0];
      assert (a + b)[1..] == a[1..] + b;
      assert WithKey(a + b, key, v) == head + WithKey(a[1..] + b, key, v);
      WithKeyAppend(a[1..], b, key, v);
      Associative(head, WithKey(a[1..], key, v), WithKey(b, key, v));
    }
  }

  lemma WithKeySingle<T>(x: T, key: T -> real, v: real)
    ensures WithKey([x], key, v) == if key(x) == v then [x] else []
  {
    assert [x][1..] == [];
  }

  lemma Associative<T>(a: seq<T>, b: seq<T>, c: seq<T>)
    ensures a + b + c == a + (b + c)
  {
  }

  lemma {:induction false} WithKeyNone<T>(s: seq<T>, key: T -> real, v: real)
    requires forall k :: 0 <= k < |s| ==> key(s[k]) != v
    ensures WithKey(s, key, v) == []
  {
    if |s| > 0 {
      WithKeyNone(s[1..], key, v);
    }
  }

  lemma {:induction false} InsertDescSorted<T>(acc: seq<T>, x: T, key: T -> real)
    requires NonIncreasing(acc, key)
    ensures NonIncreasing(InsertDesc(acc, x, key), key)
  {
    if |acc| > 0 && key(acc[0]) >= key(x) {
      InsertDescSorted(acc[1..], x, key);
      var tail := InsertDesc(acc[1..], x, key);
      InsertDescPerm(acc[1..], x, key);
      forall b | 0 <= b < |tail|
        ensures key(acc[0]) >= key(tail[b])
      {
        assert tail[b] in multiset(tail);
        assert tail[b] in multiset(acc[1..]) || tail[b] == x;
        if tail[b] != x {
          var k :| 0 <= k < |acc[1..]| && acc[1..][k] == tail[b];
          assert acc[k + 1] == tail[b];
        }
      }
    }
  }

  lemma {:induction false} InsertDescStable<T>(acc: seq<T>, x: T, key: T -> real, v: real)
    requires NonIncreasing(acc, key)
    ensures WithKey(InsertDesc(acc, x, key), key, v)
         == WithKey(acc, key, v) + (if key(x) == v then [x] else [])
  {
    if |acc| == 0 {
    } else if key(acc[0]) >= key(x) {
      InsertDescStable(acc[1..], x, key, v);
      WithKeyAppend([acc[0]], InsertDesc(acc[1..], x, key), key, v);
      WithKeyAppend([acc[0]], acc[1..], key, v);
      assert [acc[0]] + acc[1..] == acc;
    } else {
      WithKeyAppend([x], acc, key, v);
      if key(x) == v {
        WithKeyNone(acc, key, v);
      }
    }
  }

  /** The sorted sequence is in non-increasing key order. */
  lemma {:induction false} SortDescSorted<T>(s: seq<T>, key: T -> real)
    ensures NonIncreasing(SortDesc(s, key), key)
  {
    if |s| > 0 {
      SortDescSorted(s[..|s| - 1], key);
      InsertDescSorted(SortDesc(s[..|s| - 1], key), s[|s| - 1], key);
    }
  }

  /** Stability: the elements of any one key keep their original order. */
  lemma {:induction false} SortDescStable<T>(s: seq<T>, key: T -> real, v: real)
    ensures WithKey(SortDesc(s, key), key, v) == WithKey(s, key, v)
  {
    if |s| > 0 {
      var init, last := s[..|s| - 1], s[|s| - 1];
      var sortedInit := SortDesc(init, key);
      var single := if key(last) == v then [last] else [];
      assert SortDesc(s, key) == InsertDesc(sortedInit, last, key);
      SortDescSorted(init, key);
      InsertDescStable(sortedInit, last, key, v);
      assert WithKey(SortDesc(s, key), key, v) == WithKey(sortedInit, key, v) + single;
      SortDescStable(init, key, v);
      WithKeyAppend(init, [last], key, v);
      WithKeySingle(last, key, v);
      assert init + [last] == s;
    }
  }

  /** Sorting keeps length and membership (it is a permutation). */
  lemma SortDescMembers<T>(s: seq<T>, key: T -> real)
    ensures |SortDesc(s, key)| == |s|
    ensures forall x :: x in SortDesc(s, key) <==> x in s
  {
    var r := SortDesc(s, key);
    SortDescPerm(s, key);
    assert |multiset(r)| == |multiset(s)|;
    forall x
      ensures x in r <==> x in s
    {
      assert x in r <==> x in multiset(r);
      assert x in s <==> x in multiset(s);
    }
  }

  /** Two positions in the sorted order with distinct keys are ordered by key. */
  lemma SortDescLongerFirst<T>(s: seq<T>, key: T -> real, a: int, b: int)
    requires 0 <= a < |SortDesc(s, key)| && 0 <= b < |SortDesc(s, key)|
    requires key(SortDesc(s, key)[a]) > key(SortDesc(s, key)[b])
    ensures a < b
  {
    SortDescSorted(s, key);
  }
}
