/**
 * Python's `sorted(xs)` and `list.sort(key=..., reverse=...)`: a stable
 * sort by a key under a total preorder. A descending sort is the same sort
 * under the reversed order, which Python also keeps stable. Strings compare
 * by code point, lexicographically.
 */
module Sorting {
  /** `le` is total and transitive: a total preorder on keys. */
  ghost predicate IsTotalPreorder<K(!new)>(le: (K, K) -> bool)
  {
    (forall a, b :: le(a, b) || le(b, a)) &&
    (forall a, b, c :: le(a, b) && le(b, c) ==> le(a, c))
  }

  predicate SortedBy<T, K>(s: seq<T>, key: T -> K, le: (K, K) -> bool)
  {
    forall i, j :: 0 <= i < j < |s| ==> le(key(s[i]), key(s[j]))
  }

  /** Inserts `x` after every element whose key is not above its own. */
  function InsertBy<T, K>(x: T, s: seq<T>, key: T -> K, le: (K, K) -> bool): (r: seq<T>)
    ensures |r| == |s| + 1
  {
    if s == [] then [x]
    else if !le(key(s[0]), key(x)) then [x] + s
    else [s[0]] + InsertBy(x, s[1..], key, le)
  }

  lemma {:induction false} InsertByPermutes<T, K>(x: T, s: seq<T>, key: T -> K, le: (K, K) -> bool)
    ensures multiset(InsertBy(x, s, key, le)) == multiset(s) + multiset{x}
  {
    if s != [] && le(key(s[0]), key(x)) {
      InsertByPermutes(x, s[1..], key, le);
      assert s == [s[0]] + s[1..];
    }
  }

  /** Insertion sort, one element at a time from the left: stable. */
  function SortBy<T, K>(s: seq<T>, key: T -> K, le: (K, K) -> bool): (r: seq<T>)
    ensures |r| == |s|
  {
    if s == [] then []
    else InsertBy(s[|s| - 1], SortBy(s[..|s| - 1], key, le), key, le)
  }

  /** The result is a permutation of the input. */
  lemma {:induction false} SortByPermutes<T, K>(s: seq<T>, key: T -> K, le: (K, K) -> bool)
    ensures multiset(SortBy(s, key, le)) == multiset(s)
  {
    if s != [] {
      SortByPermutes(s[..|s| - 1], key, le);
      InsertByPermutes(s[|s| - 1], SortBy(s[..|s| - 1], key, le), key, le);
      assert s == s[..|s| - 1] + [s[|s| - 1]];
    }
  }

  lemma {:induction false} InsertSorted<T, K(!new)>(x: T, s: seq<T>, key: T -> K, le: (K, K) -> bool)
    requires IsTotalPreorder(le) && SortedBy(s, key, le)
    ensures SortedBy(InsertBy(x, s, key, le), key, le)
  {
    if s != [] && le(key(s[0]), key(x)) {
      InsertSorted(x, s[1..], key, le);
      var r := InsertBy(x, s, key, le);
      var tail := InsertBy(x, s[1..], key, le);
      assert r == [s[0]] + tail;
      InsertByPermutes(x, s[1..], key, le);
      forall j | 0 < j < |r|
        ensures le(key(s[0]), key(r[j]))
      {
        assert r[j] in multiset(tail);
        assert r[j] in multiset(s[1..]) + multiset{x};
        if r[j] != x {
          assert r[j] in s[1..];
        }
      }
    }
  }

  /** The result is ordered by key. */
  lemma {:induction false} SortBySorted<T, K(!new)>(s: seq<T>, key: T -> K, le: (K, K) -> bool)
    requires IsTotalPreorder(le)
    ensures SortedBy(SortBy(s, key, le), key, le)
  {
    if s != [] {
      SortBySorted(s[..|s| - 1], key, le);
      InsertSorted(s[|s| - 1], SortBy(s[..|s| - 1], key, le), key, le);
    }
  }

  /** The elements whose key is equivalent to `k`, in order. */
  function Tied<T, K>(s: seq<T>, key: T -> K, le: (K, K) -> bool, k: K): (r: seq<T>)
    ensures |r| <= |s|
  {
    if s == [] then []
    else (if le(key(s[0]), k) && le(k, key(s[0])) then [s[0]] else []) + Tied(s[1..], key, le, k)
  }

  lemma {:induction false} TiedAppend<T, K>(a: seq<T>, b: seq<T>, key: T -> K, le: (K, K) -> bool, k: K)
    ensures Tied(a + b, key, le, k) == Tied(a, key, le, k) + Tied(b, key, le, k)
  {
    if a != [] {
      assert (a + b)[1..] == a[1..] + b;
      TiedAppend(a[1..], b, key, le, k);
    } else {
      assert a + b == b;
    }
  }

  /** No element above `x`'s key is tied with anything `x` is tied with. */
  lemma {:induction false} TiedNoneAbove<T, K(!new)>(x: T, s: seq<T>, key: T -> K, le: (K, K) -> bool, k: K)
    requires IsTotalPreorder(le)
    requires forall i :: 0 <= i < |s| ==> !le(key(s[i]), key(x))
    requires le(key(x), k) && le(k, key(x))
    ensures Tied(s, key, le, k) == []
  {
    if s != [] {
      TiedNoneAbove(x, s[1..], key, le, k);
      assert !le(key(s[0]), key(x));
    }
  }

  /** `[x]` when `x`'s key is equivalent to `k`, else nothing. */
  function TiedOne<T, K>(x: T, key: T -> K, le: (K, K) -> bool, k: K): seq<T>
  {
    if le(key(x), k) && le(k, key(x)) then [x] else []
  }

  /** Inserting in front of a sorted list all of whose keys are above `x`'s. */
  lemma InsertTiedFront<T, K(!new)>(x: T, s: seq<T>, key: T -> K, le: (K, K) -> bool, k: K)
    requires IsTotalPreorder(le) && SortedBy(s, key, le)
    requires s != [] && !le(key(s[0]), key(x))
    ensures Tied([x] + s, key, le, k) == Tied(s, key, le, k) + TiedOne(x, key, le, k)
  {
    assert ([x] + s)[1..] == s;
    if le(key(x), k) && le(k, key(x)) {
      forall i | 0 <= i < |s|
        ensures !le(key(s[i]), key(x))
      {
        if i > 0 {
          assert le(key(s[0]), key(s[i]));
        }
      }
      TiedNoneAbove(x, s, key, le, k);
    }
  }

  lemma {:induction false} InsertTied<T, K(!new)>(x: T, s: seq<T>, key: T -> K, le: (K, K) -> bool, k: K)
    requires IsTotalPreorder(le) && SortedBy(s, key, le)
    ensures Tied(InsertBy(x, s, key, le), key, le, k) == Tied(s, key, le, k) + TiedOne(x, key, le, k)
    decreases |s|
  {
    if s == [] {
      assert InsertBy(x, s, key, le) == [x];
    } else if !le(key(s[0]), key(x)) {
      InsertTiedFront(x, s, key, le, k);
    } else {
      InsertTied(x, s[1..], key, le, k);
      InsertTiedLater(x, s, key, le, k);
    }
  }

  /** Inserting past the head: the head's tie status comes first, as before. */
  lemma {:induction false} InsertTiedLater<T, K>(x: T, s: seq<T>, key: T -> K, le: (K, K) -> bool, k: K)
    requires s != [] && le(key(s[0]), key(x))
    requires Tied(InsertBy(x, s[1..], key, le), key, le, k) == Tied(s[1..], key, le, k) + TiedOne(x, key, le, k)
    ensures Tied(InsertBy(x, s, key, le), key, le, k) == Tied(s, key, le, k) + TiedOne(x, key, le, k)
  {
    var tail := InsertBy(x, s[1..], key, le);
    var head := TiedOne(s[0], key, le, k);
    calc {
      Tied(InsertBy(x, s, key, le), key, le, k);
      { assert InsertBy(x, s, key, le) == [s[0]] + tail; }
      Tied([s[0]] + tail, key, le, k);
      { TiedCons(s[0], tail, key, le, k); }
      head + Tied(tail, key, le, k);
      head + (Tied(s[1..], key, le, k) + TiedOne(x, key, le, k));
      (head + Tied(s[1..], key, le, k)) + TiedOne(x, key, le, k);
      { TiedCons(s[0], s[1..], key, le, k); assert [s[0]] + s[1..] == s; }
      Tied(s, key, le, k) + TiedOne(x, key, le, k);
    }
  }

  lemma TiedCons<T, K>(y: T, t: seq<T>, key: T -> K, le: (K, K) -> bool, k: K)
    ensures Tied([y] + t, key, le, k) == TiedOne(y, key, le, k) + Tied(t, key, le, k)
  {
    assert ([y] + t)[0] == y;
    assert ([y] + t)[1..] == t;
  }

  /**
   * Stability: for every key, the elements tied on it appear in the result
   * in their input order.
   */
  lemma {:induction false} SortByStable<T, K(!new)>(s: seq<T>, key: T -> K, le: (K, K) -> bool, k: K)
    requires IsTotalPreorder(le)
    ensures Tied(SortBy(s, key, le), key, le, k) == Tied(s, key, le, k)
  {
    if s != [] {
      var prefix := s[..|s| - 1];
      var last := s[|s| - 1];
      SortByStable(prefix, key, le, k);
      SortBySorted(prefix, key, le);
      InsertTied(last, SortBy(prefix, key, le), key, le, k);
      assert s == prefix + [last];
      TiedAppend(prefix, [last], key, le, k);
    }
  }

  /** With distinct keys, each element occurs once. */
  lemma OccursOnce<T, K>(c: seq<T>, key: T -> K, a: nat)
    requires forall x, y :: 0 <= x < y < |c| ==> key(c[x]) != key(c[y])
    requires a < |c|
    ensures multiset(c)[c[a]] == 1
  {
    assert c == c[..a] + [c[a]] + c[a + 1..];
    forall k | 0 <= k < a
      ensures c[..a][k] != c[a]
    {
      assert key(c[k]) != key(c[a]);
    }
    forall k | a + 1 <= k < |c|
      ensures c[k] != c[a]
    {
      assert key(c[a]) != key(c[k]);
    }
    assert c[a] !in c[..a];
    assert c[a] !in c[a + 1..];
  }

  /** An element at two positions occurs at least twice. */
  lemma OccursTwice<T>(p: seq<T>, i: nat, j: nat)
    requires i < j < |p| && p[i] == p[j]
    ensures multiset(p)[p[i]] >= 2
  {
    assert p == p[..i] + [p[i]] + p[i + 1..j] + [p[j]] + p[j + 1..];
  }

  /** Two positions of a permutation of a list with distinct keys hold distinct keys. */
  lemma DistinctAfterPermutation<T, K>(c: seq<T>, p: seq<T>, key: T -> K, i: nat, j: nat)
    requires forall a, b :: 0 <= a < b < |c| ==> key(c[a]) != key(c[b])
    requires multiset(p) == multiset(c)
    requires i < j < |p|
    ensures key(p[i]) != key(p[j])
  {
    assert p[i] in multiset(c) && p[j] in multiset(c);
    var a :| 0 <= a < |c| && c[a] == p[i];
    var b :| 0 <= b < |c| && c[b] == p[j];
    if a == b {
      OccursTwice(p, i, j);
      OccursOnce(c, key, a);
    }
  }

  // ---------------------------------------------------------------- strings

  /** Python's `a <= b` on strings: code point by code point. */
  predicate StrLe(a: string, b: string)
  {
    a == [] || (b != [] && (a[0] < b[0] || (a[0] == b[0] && StrLe(a[1..], b[1..]))))
  }

  lemma {:induction false} StrLeTotal(a: string, b: string)
    ensures StrLe(a, b) || StrLe(b, a)
  {
    if a != [] && b != [] && a[0] == b[0] {
      StrLeTotal(a[1..], b[1..]);
    }
  }

  lemma {:induction false} StrLeTrans(a: string, b: string, c: string)
    requires StrLe(a, b) && StrLe(b, c)
    ensures StrLe(a, c)
  {
    if a != [] && a[0] == b[0] && b[0] == c[0] {
      StrLeTrans(a[1..], b[1..], c[1..]);
    }
  }

  lemma StrLeTotalPreorder()
    ensures IsTotalPreorder(StrLe)
  {
    forall a, b ensures StrLe(a, b) || StrLe(b, a) {
      StrLeTotal(a, b);
    }
    forall a, b, c | StrLe(a, b) && StrLe(b, c) ensures StrLe(a, c) {
      StrLeTrans(a, b, c);
    }
  }

  /** Python's `a >= b` on strings: the order of a descending sort. */
  predicate StrGe(a: string, b: string)
  {
    StrLe(b, a)
  }

  lemma StrGeTotalPreorder()
    ensures IsTotalPreorder(StrGe)
  {
    StrLeTotalPreorder();
  }

  function Identity<T>(x: T): T
  {
    x
  }

  /** `sorted(names)`: ascending code-point order, same names. */
  function SortedStrings(names: seq<string>): (r: seq<string>)
    ensures multiset(r) == multiset(names)
    ensures forall i, j :: 0 <= i < j < |r| ==> StrLe(r[i], r[j])
  {
    StrLeTotalPreorder();
    SortBySorted(names, Identity, StrLe);
    SortByPermutes(names, Identity, StrLe);
    SortBy(names, Identity, StrLe)
  }
}
