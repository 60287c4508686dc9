/** Order-preserving selection from a sequence, as a Python list comprehension with an `if`
    clause builds it. */
module Seqs {

  /** `[x for x in xs if p(x)]` */
  function Keep<T>(xs: seq<T>, p: T -> bool): (ys: seq<T>)
    ensures |ys| <= |xs|
    ensures forall k :: 0 <= k < |ys| ==> p(ys[k])
  {
    if xs == [] then [] else Keep(xs[..|xs| - 1], p) + (if p(xs[|xs| - 1]) then [xs[|xs| - 1]] else [])
  }

  /** `[x for x in xs if not p(x)]` */
  function Drop<T>(xs: seq<T>, p: T -> bool): (ys: seq<T>)
    ensures |ys| <= |xs|
    ensures forall k :: 0 <= k < |ys| ==> !p(ys[k])
  {
    if xs == [] then [] else Drop(xs[..|xs| - 1], p) + (if p(xs[|xs| - 1]) then [] else [xs[|xs| - 1]])
  }

  /** Together the two selections hold every element exactly as often as the input does. */
  lemma {:induction false} KeepDropPartition<T>(xs: seq<T>, p: T -> bool)
    ensures multiset(Keep(xs, p)) + multiset(Drop(xs, p)) == multiset(xs)
  {
    if xs != [] {
      var init := xs[..|xs| - 1];
      var x := xs[|xs| - 1];
      KeepDropPartition(init, p);
      assert xs == init + [x];
      assert multiset(xs) == multiset(init) + multiset{x};
      if p(x) {
        assert multiset(Keep(xs, p)) == multiset(Keep(init, p)) + multiset{x};
        assert Drop(xs, p) == Drop(init, p);
      } else {
        assert Keep(xs, p) == Keep(init, p);
        assert multiset(Drop(xs, p)) == multiset(Drop(init, p)) + multiset{x};
      }
    }
  }

  /** Selecting from a concatenation selects from each part. */
  lemma {:induction false} KeepAppend<T>(a: seq<T>, b: seq<T>, p: T -> bool)
    ensures Keep(a + b, p) == Keep(a, p) + Keep(b, p)
    decreases |b|
  {
    if b == [] {
      assert a + b == a;
    } else {
      var b' := b[..|b| - 1];
      assert (a + b)[..|a + b| - 1] == a + b';
      KeepAppend(a, b', p);
    }
  }

  /** Everything is kept from a sequence all of whose elements pass. */
  lemma {:induction false} KeepAll<T>(s: seq<T>, p: T -> bool)
    requires forall i :: 0 <= i < |s| ==> p(s[i])
    ensures Keep(s, p) == s
  {
    if s != [] {
      KeepAll(s[..|s| - 1], p);
      assert s == s[..|s| - 1] + [s[|s| - 1]];
    }
  }

  /** Nothing is kept from a sequence none of whose elements passes. */
  lemma {:induction false} KeepNone<T>(s: seq<T>, p: T -> bool)
    requires forall i :: 0 <= i < |s| ==> !p(s[i])
    ensures Keep(s, p) == []
  {
    if s != [] {
      KeepNone(s[..|s| - 1], p);
    }
  }

  /** `xs[:n]` */
  function Take<T>(xs: seq<T>, n: nat): (ys: seq<T>)
    ensures |ys| == (if n < |xs| then n else |xs|)
    ensures ys == xs[..|ys|]
  {
    if n < |xs| then xs[..n] else xs
  }

  /** The elements of `xs` in the order of their first occurrence, each once: the key order of
      a dictionary filled from `xs`. */
  function Distinct<T(==)>(xs: seq<T>): (ys: seq<T>)
    ensures forall i, j :: 0 <= i < j < |ys| ==> ys[i] != ys[j]
    ensures forall i :: 0 <= i < |ys| ==> ys[i] in xs
    ensures forall i :: 0 <= i < |xs| ==> xs[i] in ys
  {
    if xs == [] then []
    else
      var init := Distinct(xs[..|xs| - 1]);
      var x := xs[|xs| - 1];
      if x in init then init else init + [x]
  }

  /** `Distinct` grows by an element only the first time it is seen. */
  lemma DistinctSnoc<T>(xs: seq<T>, y: T)
    ensures Distinct(xs + [y]) == if y in Distinct(xs) then Distinct(xs) else Distinct(xs) + [y]
  {
    assert (xs + [y])[..|xs|] == xs;
  }

  /** `Distinct` keeps exactly the elements of its argument. */
  lemma InDistinct<T>(xs: seq<T>, y: T)
    ensures y in Distinct(xs) <==> y in xs
  {
    if y in Distinct(xs) {
      var i :| 0 <= i < |Distinct(xs)| && Distinct(xs)[i] == y;
    }
    if y in xs {
      var i :| 0 <= i < |xs| && xs[i] == y;
    }
  }

  /** The last element of `a + b`, and what comes before it, when `b` is not empty. */
  lemma AppendSnoc<T>(a: seq<T>, b: seq<T>)
    requires b != []
    ensures (a + b)[..|a + b| - 1] == a + b[..|b| - 1]
    ensures (a + b)[|a + b| - 1] == b[|b| - 1]
  {
  }
}
