/** Counting objects: the `counts[k] = (counts[k] || 0) + 1` idiom over a list
    of keys, the order in which a plain object lists keys that are not array
    indices (the order they were first added), and the list facts (filtering,
    no repetitions) the counting code relies on. */
module Counting {

  /** The counter object after one more occurrence of `k`. */
  function Increment<K>(m: map<K, nat>, k: K): (r: map<K, nat>)
    ensures r.Keys == m.Keys + {k}
    ensures r[k] == (if k in m then m[k] else 0) + 1
    ensures forall j | j in m && j != k :: r[j] == m[j]
  {
    m[k := (if k in m then m[k] else 0) + 1]
  }

  /** The counter object after counting every key of `xs`, in order. */
  function Counts<K>(xs: seq<K>): map<K, nat> {
    if xs == [] then map[] else Increment(Counts(xs[..|xs| - 1]), xs[|xs| - 1])
  }

  /** The counter holds exactly the keys that occur, each with its number of
      occurrences. */
  lemma {:induction false} CountsAreMultiplicities<K>(xs: seq<K>)
    ensures forall k :: k in Counts(xs) <==> k in xs
    ensures forall k | k in Counts(xs) :: Counts(xs)[k] == multiset(xs)[k]
  {
    if xs != [] {
      var p := xs[..|xs| - 1];
      var x := xs[|xs| - 1];
      var m := Counts(p);
      CountsAreMultiplicities(p);
      assert xs == p + [x];
      assert multiset(xs) == multiset(p) + multiset{x};
      assert Counts(xs) == Increment(m, x);
      forall k ensures k in Counts(xs) <==> k in xs {
        assert k in xs <==> k in p || k == x;
        assert k in Counts(xs) <==> k in m || k == x;
      }
      forall k | k in Counts(xs) ensures Counts(xs)[k] == multiset(xs)[k] {
        if k != x {
          assert k in m;
          assert Counts(xs)[k] == m[k];
        } else if x !in p {
          assert multiset(p)[x] == 0;
        }
      }
    }
  }

  /** The keys of `xs` without repetition, in the order of their first
      occurrence: the order of `Object.keys` on a counter object whose keys are
      not array indices. */
  function FirstAppearances<K(==)>(xs: seq<K>): (r: seq<K>)
    ensures forall k | k in r :: k in xs
    ensures forall k | k in xs :: k in r
    ensures forall i, j :: 0 <= i < j < |r| ==> r[i] != r[j]
  {
    if xs == [] then []
    else
      var p := FirstAppearances(xs[..|xs| - 1]);
      var x := xs[|xs| - 1];
      assert xs == xs[..|xs| - 1] + [x];
      if x in p then p else p + [x]
  }

  /** The counting `forEach` over one list: each key bumps the counter. */
  method CountAll<K>(counts0: map<K, nat>, ghost before: seq<K>, xs: seq<K>) returns (counts: map<K, nat>)
    requires counts0 == Counts(before)
    ensures counts == Counts(before + xs)
  {
    counts := counts0;
    assert before + xs[..0] == before;
    for j := 0 to |xs|
      invariant counts == Counts(before + xs[..j])
    {
      ghost var s := before + xs[..j + 1];
      assert s[..|s| - 1] == before + xs[..j] && s[|s| - 1] == xs[j];
      assert Counts(s) == Increment(Counts(before + xs[..j]), xs[j]);
      counts := Increment(counts, xs[j]);
    }
    assert xs[..|xs|] == xs;
  }

  /** No element occurs twice. */
  predicate NoDuplicates<T(==)>(s: seq<T>) {
    forall i, j :: 0 <= i < j < |s| ==> s[i] != s[j]
  }

  /** A list without repetitions holds each value at most once. */
  lemma {:induction false} NoDuplicatesOnce<T>(s: seq<T>, v: T)
    requires NoDuplicates(s)
    ensures multiset(s)[v] <= 1
  {
    if s != [] {
      var p := s[..|s| - 1];
      var x := s[|s| - 1];
      assert s == p + [x];
      NoDuplicatesOnce(p, v);
    }
  }

  /** A reordering of a list without repetitions has none either. */
  lemma {:induction false} PermutationNoDuplicates<T>(a: seq<T>, s: seq<T>)
    requires multiset(a) == multiset(s) && NoDuplicates(a)
    ensures NoDuplicates(s)
  {
    forall i, j | 0 <= i < j < |s| ensures s[i] != s[j] {
      if s[i] == s[j] {
        var v := s[i];
        assert s == s[..j] + s[j..];
        assert s[..j][i] == v && s[j..][0] == v;
        assert multiset(s)[v] == multiset(s[..j])[v] + multiset(s[j..])[v];
        NoDuplicatesOnce(a, v);
      }
    }
  }

  /** A reordering holds the same elements. */
  lemma {:induction false} PermutationSameElements<T>(a: seq<T>, s: seq<T>)
    requires multiset(a) == multiset(s)
    ensures forall x :: x in a <==> x in s
  {
    forall x ensures x in a <==> x in s {
      assert x in a <==> x in multiset(a);
      assert x in s <==> x in multiset(s);
    }
  }

  /** Two lists without repetitions and with no value in common concatenate to
      one without repetitions. */
  lemma {:induction false} AppendNoDuplicates<T>(a: seq<T>, b: seq<T>)
    requires NoDuplicates(a) && NoDuplicates(b)
    requires forall x | x in a :: x !in b
    ensures NoDuplicates(a + b)
  {
    forall i, j | 0 <= i < j < |a + b| ensures (a + b)[i] != (a + b)[j] {
      if j < |a| {
        assert (a + b)[i] == a[i] && (a + b)[j] == a[j];
      } else if i < |a| {
        assert (a + b)[i] == a[i] && (a + b)[j] == b[j - |a|];
        assert a[i] in a;
      } else {
        assert (a + b)[i] == b[i - |a|] && (a + b)[j] == b[j - |a|];
      }
    }
  }

  /** `.filter(keep)`: the elements that pass, in order. */
  function Filter<T>(s: seq<T>, keep: T -> bool): (r: seq<T>)
    ensures forall x | x in r :: x in s && keep(x)
    ensures forall x | x in s && keep(x) :: x in r
    ensures multiset(r) <= multiset(s)
  {
    if s == [] then []
    else
      var p := s[..|s| - 1];
      var x := s[|s| - 1];
      assert s == p + [x];
      Filter(p, keep) + (if keep(x) then [x] else [])
  }

  /** Filtering a list whose every element passes changes nothing. */
  lemma {:induction false} FilterAll<T>(s: seq<T>, keep: T -> bool)
    requires forall i :: 0 <= i < |s| ==> keep(s[i])
    ensures Filter(s, keep) == s
  {
    if s != [] {
      var p := s[..|s| - 1];
      var x := s[|s| - 1];
      assert s == p + [x];
      FilterAll(p, keep);
      FilterLast(s, keep);
    }
  }

  /** One step of `Filter`: the last element is kept exactly when it passes. */
  lemma {:induction false} FilterLast<T>(s: seq<T>, keep: T -> bool)
    requires s != []
    ensures Filter(s, keep) == Filter(s[..|s| - 1], keep) + (if keep(s[|s| - 1]) then [s[|s| - 1]] else [])
  {
  }

  /** A one-element list keeps its element or loses it. */
  lemma {:induction false} FilterSingle<T>(x: T, keep: T -> bool)
    ensures Filter([x], keep) == (if keep(x) then [x] else [])
  {
    FilterLast([x], keep);
    assert [x][..0] == [];
  }

  /** Filtering a concatenation filters each part. */
  lemma {:induction false} FilterConcat<T>(a: seq<T>, b: seq<T>, keep: T -> bool)
    ensures Filter(a + b, keep) == Filter(a, keep) + Filter(b, keep)
    decreases |b|
  {
    if b == [] {
      assert a + b == a;
    } else {
      var p := b[..|b| - 1];
      var x := b[|b| - 1];
      var tail := if keep(x) then [x] else [];
      var ab := a + b;
      assert ab[..|ab| - 1] == a + p;
      assert ab[|ab| - 1] == x;
      FilterLast(ab, keep);
      FilterLast(b, keep);
      assert Filter(ab, keep) == Filter(a + p, keep) + tail;
      FilterConcat(a, p, keep);
      assert Filter(ab, keep) == (Filter(a, keep) + Filter(p, keep)) + tail;
      assert Filter(b, keep) == Filter(p, keep) + tail;
    }
  }

  /** Filtering keeps a list without repetitions. */
  lemma {:induction false} FilterNoDuplicates<T>(s: seq<T>, keep: T -> bool)
    requires NoDuplicates(s)
    ensures NoDuplicates(Filter(s, keep))
  {
    if s != [] {
      var p := s[..|s| - 1];
      var x := s[|s| - 1];
      assert s == p + [x];
      FilterNoDuplicates(p, keep);
      if keep(x) {
        forall y | y in Filter(p, keep) ensures y !in [x] {
          var i :| 0 <= i < |p| && p[i] == y;
          assert s[i] == y;
        }
        AppendNoDuplicates(Filter(p, keep), [x]);
      } else {
        assert Filter(s, keep) == Filter(p, keep) + [];
      }
    }
  }
}
