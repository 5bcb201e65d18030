/**
 * Sequence operations the storage queries are built from: `Array.prototype.filter`
 * and the stable `Array.prototype.sort` with a numeric comparator.
 */
module Sequences {

  /** The elements of `s` that satisfy `p`, in their original order. */
  function Where<T(!new)>(s: seq<T>, p: T -> bool): (r: seq<T>)
    ensures |r| <= |s|
    ensures forall x :: x in r <==> x in s && p(x)
    ensures multiset(r) <= multiset(s)
    ensures forall x :: multiset(r)[x] == if p(x) then multiset(s)[x] else 0
  {
    if s == [] then []
    else
      assert s == [s[0]] + s[1..];
      if p(s[0]) then [s[0]] + Where(s[1..], p) else Where(s[1..], p)
  }

  /** Filtering a concatenation filters each part and keeps the parts in order. */
  lemma {:induction false} WhereAppend<T(!new)>(a: seq<T>, b: seq<T>, p: T -> bool)
    ensures Where(a + b, p) == Where(a, p) + Where(b, p)
  {
    if a == [] {
      assert a + b == b;
    } else {
      assert (a + b)[0] == a[0];
      assert (a + b)[1..] == a[1..] + b;
      WhereAppend(a[1..], b, p);
      if p(a[0]) {
        calc {
          Where(a + b, p);
          [a[0]] + Where(a[1..] + b, p);
          [a[0]] + (Where(a[1..], p) + Where(b, p));
          ([a[0]] + Where(a[1..], p)) + Where(b, p);
          Where(a, p) + Where(b, p);
        }
      } else {
        calc {
          Where(a + b, p);
          Where(a[1..] + b, p);
          Where(a[1..], p) + Where(b, p);
          Where(a, p) + Where(b, p);
        }
      }
    }
  }

  /** A single element is kept exactly when it satisfies the predicate. */
  lemma WhereSingleton<T(!new)>(x: T, p: T -> bool)
    ensures Where([x], p) == if p(x) then [x] else []
  {
    assert [x][1..] == [];
  }

  /** `s` is in ascending order of `key`. */
  ghost predicate SortedBy<T>(s: seq<T>, key: T -> int) {
    forall i, j :: 0 <= i < j < |s| ==> key(s[i]) <= key(s[j])
  }

  /** The elements of `s` whose key is `k`, in their order in `s`. */
  function Tied<T>(s: seq<T>, key: T -> int, k: int): seq<T> {
    if s == [] then []
    else if key(s[0]) == k then [s[0]] + Tied(s[1..], key, k)
    else Tied(s[1..], key, k)
  }

  /** Inserts `x` in front of the first element whose key is not below its own. */
  function Insert<T>(x: T, s: seq<T>, key: T -> int): seq<T> {
    if s == [] then [x]
    else if key(x) <= key(s[0]) then [x] + s
    else [s[0]] + Insert(x, s[1..], key)
  }

  /**
   * Stable sort by ascending `key`: the order `Array.prototype.sort` produces with the
   * comparator `(a, b) => key(a) - key(b)` (the sort is stable since ECMAScript 2019).
   */
  function SortBy<T>(s: seq<T>, key: T -> int): seq<T> {
    if s == [] then [] else Insert(s[0], SortBy(s[1..], key), key)
  }

  lemma {:induction false} InsertMultiset<T>(x: T, s: seq<T>, key: T -> int)
    ensures multiset(Insert(x, s, key)) == multiset(s) + multiset{x}
  {
    if s != [] && key(x) > key(s[0]) {
      InsertMultiset(x, s[1..], key);
      assert s == [s[0]] + s[1..];
    }
  }

  /** Inserting an element that is not below `b` into elements not below `b` keeps them all there. */
  lemma {:induction false} InsertAbove<T>(x: T, s: seq<T>, key: T -> int, b: int)
    requires b <= key(x)
    requires forall i :: 0 <= i < |s| ==> b <= key(s[i])
    ensures forall i :: 0 <= i < |Insert(x, s, key)| ==> b <= key(Insert(x, s, key)[i])
  {
    var t := Insert(x, s, key);
    if s == [] {
    } else if key(x) <= key(s[0]) {
      assert t == [x] + s;
      forall i | 0 < i < |t| ensures b <= key(t[i]) {
        assert t[i] == s[i - 1];
      }
    } else {
      var r := Insert(x, s[1..], key);
      InsertAbove(x, s[1..], key, b);
      assert t == [s[0]] + r;
      forall i | 0 < i < |t| ensures b <= key(t[i]) {
        assert t[i] == r[i - 1];
      }
    }
  }

  lemma {:induction false} InsertSorted<T>(x: T, s: seq<T>, key: T -> int)
    requires SortedBy(s, key)
    ensures SortedBy(Insert(x, s, key), key)
  {
    if s != [] && key(x) > key(s[0]) {
      var r := Insert(x, s[1..], key);
      InsertSorted(x, s[1..], key);
      InsertAbove(x, s[1..], key, key(s[0]));
      var t := [s[0]] + r;
      assert Insert(x, s, key) == t;
      forall i, j | 0 <= i < j < |t| ensures key(t[i]) <= key(t[j]) {
        assert t[j] == r[j - 1];
        if i > 0 {
          assert t[i] == r[i - 1];
        }
      }
    } else if s != [] {
      var t := [x] + s;
      assert Insert(x, s, key) == t;
      forall i, j | 0 <= i < j < |t| ensures key(t[i]) <= key(t[j]) {
        assert t[j] == s[j - 1];
        if i > 0 {
          assert t[i] == s[i - 1];
        }
      }
    }
  }

  lemma {:induction false} InsertTied<T>(x: T, s: seq<T>, key: T -> int, k: int)
    requires SortedBy(s, key)
    ensures Tied(Insert(x, s, key), key, k) == (if key(x) == k then [x] else []) + Tied(s, key, k)
  {
    if s == [] {
    } else if key(x) <= key(s[0]) {
      assert Insert(x, s, key) == [x] + s;
      assert ([x] + s)[1..] == s;
    } else {
      InsertTied(x, s[1..], key, k);
      var r := Insert(x, s[1..], key);
      assert ([s[0]] + r)[1..] == r;
      if key(x) == k {
        assert key(s[0]) != k;
      }
    }
  }

  /**
   * The sort returns a permutation of its input, in ascending key order, and keeps
   * elements with equal keys in their input order.
   */
  lemma {:induction false} SortByCorrect<T>(s: seq<T>, key: T -> int)
    ensures SortedBy(SortBy(s, key), key)
    ensures multiset(SortBy(s, key)) == multiset(s)
    ensures forall k :: Tied(SortBy(s, key), key, k) == Tied(s, key, k)
  {
    if s != [] {
      SortByCorrect(s[1..], key);
      InsertSorted(s[0], SortBy(s[1..], key), key);
      InsertMultiset(s[0], SortBy(s[1..], key), key);
      assert s == [s[0]] + s[1..];
      forall k ensures Tied(SortBy(s, key), key, k) == Tied(s, key, k) {
        InsertTied(s[0], SortBy(s[1..], key), key, k);
      }
    }
  }

  lemma {:induction false} TiedMembers<T>(s: seq<T>, key: T -> int, k: int)
    ensures forall x :: x in Tied(s, key, k) <==> x in s && key(x) == k
  {
    if s != [] {
      TiedMembers(s[1..], key, k);
      assert s == [s[0]] + s[1..];
    }
  }

  lemma TiedOfNonEmpty<T>(s: seq<T>, key: T -> int)
    requires s != []
    ensures Tied(s, key, key(s[0])) != []
  {
  }

  /**
   * Ascending order together with the order of every group of equal keys fixes the
   * sequence: the sort above is the only order that meets both.
   */
  lemma {:induction false} SortedAndTiedIsUnique<T>(r1: seq<T>, r2: seq<T>, key: T -> int)
    requires SortedBy(r1, key) && SortedBy(r2, key)
    requires forall k :: Tied(r1, key, k) == Tied(r2, key, k)
    ensures r1 == r2
  {
    if r1 == [] || r2 == [] {
      if r1 != [] {
        TiedOfNonEmpty(r1, key);
        assert false;
      } else if r2 != [] {
        TiedOfNonEmpty(r2, key);
        assert false;
      }
    } else {
      var a, b := key(r1[0]), key(r2[0]);
      TiedMembers(r1, key, a);
      TiedMembers(r2, key, a);
      TiedMembers(r1, key, b);
      TiedMembers(r2, key, b);
      assert r1[0] in Tied(r1, key, a);
      assert r2[0] in Tied(r2, key, b);
      assert a == b;
      assert Tied(r1, key, a)[0] == r1[0];
      assert Tied(r2, key, a)[0] == r2[0];
      forall k ensures Tied(r1[1..], key, k) == Tied(r2[1..], key, k) {
        assert Tied(r1, key, k) == Tied(r2, key, k);
        if k == a {
          assert Tied(r1, key, k) == [r1[0]] + Tied(r1[1..], key, k);
          assert Tied(r2, key, k) == [r2[0]] + Tied(r2[1..], key, k);
          assert Tied(r1[1..], key, k) == Tied(r1, key, k)[1..];
          assert Tied(r2[1..], key, k) == Tied(r2, key, k)[1..];
        } else {
          assert Tied(r1, key, k) == Tied(r1[1..], key, k);
          assert Tied(r2, key, k) == Tied(r2[1..], key, k);
        }
      }
      assert SortedBy(r1[1..], key);
      assert SortedBy(r2[1..], key);
      SortedAndTiedIsUnique(r1[1..], r2[1..], key);
      assert r1 == [r1[0]] + r1[1..];
      assert r2 == [r2[0]] + r2[1..];
    }
  }
}
