/** `Array.prototype.sort` with a comparator of the form `(a, b) => key(b) - key(a)`:
    a stable sort into non-increasing key order. The analysis code sorts its
    findings by CVSS score and its cross-host counts by occurrence count this way. */
module StableSort {

  /** Every element's key is at least the key of every later element. */
  ghost predicate SortedDesc<T>(s: seq<T>, key: T -> real) {
    forall i, j :: 0 <= i < j < |s| ==> key(s[i]) >= key(s[j])
  }

  /** The elements of `s` whose key is `k`, in their order in `s`. A sort is
      stable exactly when it leaves every such subsequence as it was. */
  function OfKey<T>(s: seq<T>, key: T -> real, k: real): seq<T> {
    if s == [] then [] else (if key(s[0]) == k then [s[0]] else []) + OfKey(s[1..], key, k)
  }

  /** Puts `x` in front of the first element of `s` whose key is not above
      `key(x)`: `x` comes from earlier in the input than all of `s`, so among
      equal keys it must stay first. */
  function Insert<T>(x: T, s: seq<T>, key: T -> real): (r: seq<T>)
    ensures multiset(r) == multiset(s) + multiset{x}
  {
    if s == [] then [x]
    else if key(s[0]) <= key(x) then [x] + s
    else
      assert s == [s[0]] + s[1..];
      [s[0]] + Insert(x, s[1..], key)
  }

  lemma {:induction false} InsertSorted<T>(x: T, s: seq<T>, key: T -> real)
    requires SortedDesc(s, key)
    ensures SortedDesc(Insert(x, s, key), key)
  {
    if s != [] && key(s[0]) > key(x) {
      var t := Insert(x, s[1..], key);
      InsertSorted(x, s[1..], key);
      assert multiset(t) == multiset(s[1..]) + multiset{x};
      forall j | 0 <= j < |t| ensures key(s[0]) >= key(t[j]) {
        assert t[j] in multiset(t);
        if t[j] != x {
          assert t[j] in multiset(s[1..]);
          var m :| 0 <= m < |s[1..]| && s[1..][m] == t[j];
          assert s[m + 1] == t[j];
        }
      }
      var r := [s[0]] + t;
      forall i, j | 0 <= i < j < |r| ensures key(r[i]) >= key(r[j]) {
        if i > 0 {
          assert r[i] == t[i - 1] && r[j] == t[j - 1];
        } else {
          assert r[j] == t[j - 1];
        }
      }
    }
  }

  /** Two pieces of which one is empty can be put in either order. */
  lemma {:induction false} SwapEmpty<T>(a: seq<T>, b: seq<T>, c: seq<T>)
    requires a == [] || b == []
    ensures a + (b + c) == b + (a + c)
  {
    if a == [] {
      assert a + (b + c) == b + c == b + (a + c);
    } else {
      assert a + (b + c) == a + c == b + (a + c);
    }
  }

  lemma {:induction false} InsertOfKey<T>(x: T, s: seq<T>, key: T -> real, k: real)
    ensures OfKey(Insert(x, s, key), key, k)
         == (if key(x) == k then [x] else []) + OfKey(s, key, k)
  {
    if s == [] {
    } else if key(s[0]) <= key(x) {
      assert ([x] + s)[1..] == s;
    } else {
      var r := Insert(x, s, key);
      InsertOfKey(x, s[1..], key, k);
      assert r[0] == s[0] && r[1..] == Insert(x, s[1..], key);
      var a := if key(s[0]) == k then [s[0]] else [];
      var b := if key(x) == k then [x] else [];
      assert a == [] || b == [];
      calc {
        OfKey(r, key, k);
        a + OfKey(r[1..], key, k);
        a + (b + OfKey(s[1..], key, k));
        { SwapEmpty(a, b, OfKey(s[1..], key, k)); }
        b + (a + OfKey(s[1..], key, k));
        b + OfKey(s, key, k);
      }
    }
  }

  /** Insertion sort into non-increasing key order. The result is sorted, is a
      permutation of the input, and keeps equal-key elements in input order. */
  function SortDesc<T>(s: seq<T>, key: T -> real): (r: seq<T>)
    ensures SortedDesc(r, key)
    ensures multiset(r) == multiset(s)
    ensures forall k :: OfKey(r, key, k) == OfKey(s, key, k)
  {
    if s == [] then []
    else
      var t := SortDesc(s[1..], key);
      InsertSorted(s[0], t, key);
      assert s == [s[0]] + s[1..];
      assert forall k :: OfKey(Insert(s[0], t, key), key, k) == OfKey(s, key, k) by {
        forall k ensures OfKey(Insert(s[0], t, key), key, k) == OfKey(s, key, k) {
          InsertOfKey(s[0], t, key, k);
        }
      }
      Insert(s[0], t, key)
  }

  /** The sort neither drops nor duplicates an element. */
  lemma {:induction false} SortDescLength<T>(s: seq<T>, key: T -> real)
    ensures |SortDesc(s, key)| == |s|
  {
    var r := SortDesc(s, key);
    assert |multiset(r)| == |multiset(s)|;
  }
}
