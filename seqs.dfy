/** Sequences without repetitions, and dropping the repetitions of one. */
module Seqs {
  import opened Wrappers

  predicate Distinct<T(==)>(xs: seq<T>)
  {
    forall i, j :: 0 <= i < j < |xs| ==> xs[i] != xs[j]
  }

  /** The index of the first occurrence of `x` in `xs`. */
  function IndexOf<T(==)>(xs: seq<T>, x: T): (k: nat)
    requires x in xs
    ensures k < |xs| && xs[k] == x && x !in xs[..k]
  {
    if xs[0] == x then 0 else 1 + IndexOf(xs[1..], x)
  }

  /** `xs` keeping only the first occurrence of each element, in order:
      what a loop produces that appends an element unless it is already
      in the result. */
  function Dedup<T(==)>(xs: seq<T>): seq<T>
  {
    if xs == [] then []
    else
      var d := Dedup(xs[..|xs| - 1]);
      if xs[|xs| - 1] in d then d else d + [xs[|xs| - 1]]
  }

  lemma {:induction false} IndexOfAppend<T>(xs: seq<T>, y: T, x: T)
    requires x in xs
    ensures IndexOf(xs + [y], x) == IndexOf(xs, x)
  {
    if xs[0] != x {
      assert (xs + [y])[1..] == xs[1..] + [y];
      IndexOfAppend(xs[1..], y, x);
    }
  }

  /** Dedup keeps one copy of each element of `xs`, nothing else, and lists
      them in the order of their first occurrences in `xs`. */
  lemma {:induction false} DedupSpec<T>(xs: seq<T>)
    ensures Distinct(Dedup(xs))
    ensures forall x :: x in Dedup(xs) <==> x in xs
    ensures forall i, j :: 0 <= i < j < |Dedup(xs)| ==> IndexOf(xs, Dedup(xs)[i]) < IndexOf(xs, Dedup(xs)[j])
  {
    if xs != [] {
      var init, y := xs[..|xs| - 1], xs[|xs| - 1];
      assert xs == init + [y];
      DedupSpec(init);
      var d := Dedup(init);
      forall x | x in init ensures IndexOf(xs, x) == IndexOf(init, x) {
        IndexOfAppend(init, y, x);
      }
      if y !in d {
        assert IndexOf(xs, y) == |init| by {
          assert y !in xs[..|init|];
        }
        var d' := d + [y];
        forall i, j | 0 <= i < j < |d'| ensures IndexOf(xs, d'[i]) < IndexOf(xs, d'[j]) {
          assert d'[i] == d[i];
          if j < |d| {
            assert d'[j] == d[j];
          }
        }
      }
    }
  }

  // ---------------------------------------------------------------------
  // Dropping the elements whose key was already seen

  /** The key of each element, in order. */
  function Keys<T, K>(xs: seq<T>, key: T -> K): (ks: seq<K>)
    ensures |ks| == |xs| && forall i :: 0 <= i < |xs| ==> ks[i] == key(xs[i])
  {
    seq(|xs|, i requires 0 <= i < |xs| => key(xs[i]))
  }

  /** Some element of `ys` has key `k`: the source's `any(...)` scan. */
  predicate HasKey<T, K(==)>(ys: seq<T>, key: T -> K, k: K)
  {
    exists j :: 0 <= j < |ys| && key(ys[j]) == k
  }

  /** What a loop produces that appends each element unless the result
      already holds one with the same key. */
  function DedupBy<T, K(==)>(xs: seq<T>, key: T -> K): seq<T>
  {
    if xs == [] then []
    else
      var d := DedupBy(xs[..|xs| - 1], key);
      if HasKey(d, key, key(xs[|xs| - 1])) then d else d + [xs[|xs| - 1]]
  }

  /** One more element: it is kept exactly when its key is new. */
  lemma DedupByAppend<T, K>(xs: seq<T>, x: T, key: T -> K)
    ensures DedupBy(xs + [x], key) ==
      if HasKey(DedupBy(xs, key), key, key(x)) then DedupBy(xs, key) else DedupBy(xs, key) + [x]
  {
    assert (xs + [x])[..|xs|] == xs;
  }

  lemma KeysAppend<T, K>(xs: seq<T>, x: T, key: T -> K)
    ensures Keys(xs + [x], key) == Keys(xs, key) + [key(x)]
  {
  }

  lemma HasKeyIffIn<T, K>(ys: seq<T>, key: T -> K, k: K)
    ensures HasKey(ys, key, k) <==> k in Keys(ys, key)
  {
    if k in Keys(ys, key) {
      var j :| 0 <= j < |ys| && Keys(ys, key)[j] == k;
      assert key(ys[j]) == k;
    }
  }

  /** The kept elements carry the keys of `xs` once each, in the order of
      their first occurrences, and each is the first element of `xs` with
      its key. */
  lemma {:induction false} DedupBySpec<T, K>(xs: seq<T>, key: T -> K)
    ensures Keys(DedupBy(xs, key), key) == Dedup(Keys(xs, key))
    ensures forall i :: 0 <= i < |DedupBy(xs, key)| ==>
      key(DedupBy(xs, key)[i]) in Keys(xs, key) && DedupBy(xs, key)[i] == xs[IndexOf(Keys(xs, key), key(DedupBy(xs, key)[i]))]
  {
    if xs != [] {
      var init, x := xs[..|xs| - 1], xs[|xs| - 1];
      assert xs == init + [x];
      DedupBySpec(init, key);
      var d := DedupBy(init, key);
      KeysAppend(init, x, key);
      HasKeyIffIn(d, key, key(x));
      DedupSpec(Keys(init, key));
      forall k | k in Keys(init, key) ensures IndexOf(Keys(xs, key), k) == IndexOf(Keys(init, key), k) {
        IndexOfAppend(Keys(init, key), key(x), k);
      }
      if !HasKey(d, key, key(x)) {
        KeysAppend(d, x, key);
        assert key(x) !in Keys(init, key);
        assert IndexOf(Keys(xs, key), key(x)) == |init| by {
          assert key(x) !in Keys(xs, key)[..|init|];
        }
        var d' := d + [x];
        forall i | 0 <= i < |d'|
          ensures key(d'[i]) in Keys(xs, key) && d'[i] == xs[IndexOf(Keys(xs, key), key(d'[i]))]
        {
          if i < |d| {
            assert d'[i] == d[i];
          }
        }
      }
    }
  }

  /** No two kept elements share a key, and every kept element is one of
      `xs`. */
  lemma DedupByDistinct<T, K>(xs: seq<T>, key: T -> K)
    ensures forall i, j :: 0 <= i < j < |DedupBy(xs, key)| ==> key(DedupBy(xs, key)[i]) != key(DedupBy(xs, key)[j])
    ensures forall y :: y in DedupBy(xs, key) ==> y in xs
  {
    DedupBySpec(xs, key);
    DedupSpec(Keys(xs, key));
    var d := DedupBy(xs, key);
    assert forall i :: 0 <= i < |d| ==> Keys(d, key)[i] == key(d[i]);
  }

  /** Every key of `xs` is kept: some kept element carries it. */
  lemma DedupByKeepsKeys<T, K>(xs: seq<T>, key: T -> K, x: T)
    requires x in xs
    ensures exists y :: y in DedupBy(xs, key) && key(y) == key(x)
  {
    var d := DedupBy(xs, key);
    DedupBySpec(xs, key);
    DedupSpec(Keys(xs, key));
    var i :| 0 <= i < |xs| && xs[i] == x;
    assert key(x) in Keys(xs, key) by { assert Keys(xs, key)[i] == key(x); }
    assert key(x) in Dedup(Keys(xs, key));
    assert key(x) in Keys(d, key);
    HasKeyIffIn(d, key, key(x));
    var j :| 0 <= j < |d| && key(d[j]) == key(x);
    assert d[j] in d;
  }

  /** The elements of `xs` that satisfy `p`, in their order. */
  function Filter<T(!new)>(xs: seq<T>, p: T -> bool): (r: seq<T>)
    ensures forall x :: x in r <==> x in xs && p(x)
    ensures |r| <= |xs|
  {
    if xs == [] then []
    else Filter(xs[..|xs| - 1], p) + (if p(xs[|xs| - 1]) then [xs[|xs| - 1]] else [])
  }

  /** Filtering keeps order and multiplicity: it distributes over
      concatenation. */
  lemma {:induction false} FilterConcat<T(!new)>(a: seq<T>, b: seq<T>, p: T -> bool)
    ensures Filter(a + b, p) == Filter(a, p) + Filter(b, p)
    decreases |b|
  {
    if b == [] {
      assert a + b == a;
    } else {
      var init, last := b[..|b| - 1], b[|b| - 1];
      var tail := if p(last) then [last] else [];
      var fa, fi := Filter(a, p), Filter(init, p);
      assert (a + b)[..|a + b| - 1] == a + init;
      assert Filter(a + b, p) == Filter(a + init, p) + tail;
      assert Filter(b, p) == fi + tail;
      FilterConcat(a, init, p);
      assert fa + fi + tail == fa + (fi + tail);
    }
  }

  /** A single element is kept exactly when it satisfies `p`. */
  lemma FilterSingle<T(!new)>(x: T, p: T -> bool)
    ensures Filter([x], p) == if p(x) then [x] else []
  {
    assert [x][..0] == [];
  }

  /** The position of the first element satisfying `p`, if any. */
  function FirstWhere<T>(xs: seq<T>, p: T -> bool): (r: Option<nat>)
    ensures r.None? <==> forall k :: 0 <= k < |xs| ==> !p(xs[k])
    ensures r.Some? ==> r.value < |xs| && p(xs[r.value]) && forall k :: 0 <= k < r.value ==> !p(xs[k])
  {
    if xs == [] then None
    else if p(xs[0]) then Some(0)
    else
      match FirstWhere(xs[1..], p)
      case None => None
      case Some(k) => Some(k + 1)
  }

  /** The values `f` gives for the elements of `xs`, in order, skipping the
      elements it gives `None` for. */
  function Present<A, B>(xs: seq<A>, f: A -> Option<B>): seq<B>
  {
    if xs == [] then []
    else
      var y := f(xs[|xs| - 1]);
      Present(xs[..|xs| - 1], f) + (if y.Some? then [y.value] else [])
  }

  lemma {:induction false} PresentMembers<A, B>(xs: seq<A>, f: A -> Option<B>, y: B)
    ensures y in Present(xs, f) <==> exists k :: 0 <= k < |xs| && f(xs[k]) == Some(y)
  {
    if xs != [] {
      var init, last := xs[..|xs| - 1], xs[|xs| - 1];
      PresentMembers(init, f, y);
      if y in Present(init, f) {
        var k :| 0 <= k < |init| && f(init[k]) == Some(y);
        assert xs[k] == init[k];
      }
      if exists k :: 0 <= k < |xs| && f(xs[k]) == Some(y) {
        var k :| 0 <= k < |xs| && f(xs[k]) == Some(y);
        if k < |init| {
          assert init[k] == xs[k];
        }
      }
    }
  }
}
