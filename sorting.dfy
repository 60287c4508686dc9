/** Python's `sorted(xs, key=key, reverse=True)`: a stable sort into non-increasing key order.
    It is modelled as an insertion sort, which is one stable sort; all stable sorts agree on
    every input. */
module Sorting {
  import opened Seqs

  /** Keys never increase along `s`. */
  ghost predicate NonIncreasing<T>(s: seq<T>, key: T -> int)
  {
    forall i, j :: 0 <= i < j < |s| ==> key(s[i]) >= key(s[j])
  }

  /** The number of leading elements of `s` whose key is at least `k`. */
  function LeadingAtLeast<T>(s: seq<T>, k: int, key: T -> int): (m: nat)
    ensures m <= |s|
    ensures forall i :: 0 <= i < m ==> key(s[i]) >= k
    ensures m < |s| ==> key(s[m]) < k
  {
    if s == [] || key(s[0]) < k then 0 else 1 + LeadingAtLeast(s[1..], k, key)
  }

  /** Insert `x` after every leading element whose key is at least its own, so that it
      follows the elements of equal key already there. */
  function InsertDesc<T>(x: T, s: seq<T>, key: T -> int): seq<T>
  {
    var m := LeadingAtLeast(s, key(x), key);
    s[..m] + [x] + s[m..]
  }

  /** `sorted(xs, key=key, reverse=True)` */
  function SortDesc<T>(xs: seq<T>, key: T -> int): seq<T>
  {
    if xs == [] then [] else InsertDesc(xs[|xs| - 1], SortDesc(xs[..|xs| - 1], key), key)
  }

  /** Inserting keeps the order sorted and adds exactly `x`. */
  lemma InsertDescSorted<T>(x: T, s: seq<T>, key: T -> int)
    requires NonIncreasing(s, key)
    ensures NonIncreasing(InsertDesc(x, s, key), key)
    ensures multiset(InsertDesc(x, s, key)) == multiset(s) + multiset{x}
  {
    InsertDescOrdered(x, s, key);
    InsertDescAdds(x, s, key);
  }

  /** Position `i` of an insertion: the leading elements, then `x`, then the rest of `s`. */
  lemma InsertDescAt<T>(x: T, s: seq<T>, key: T -> int, i: nat)
    requires i <= |s|
    ensures |InsertDesc(x, s, key)| == |s| + 1
    ensures var m := LeadingAtLeast(s, key(x), key);
      InsertDesc(x, s, key)[i] == if i < m then s[i] else if i == m then x else s[i - 1]
  {
  }

  /** Inserting keeps the order sorted. */
  lemma InsertDescOrdered<T>(x: T, s: seq<T>, key: T -> int)
    requires NonIncreasing(s, key)
    ensures NonIncreasing(InsertDesc(x, s, key), key)
  {
    var m := LeadingAtLeast(s, key(x), key);
    var r := InsertDesc(x, s, key);
    forall i, j | 0 <= i < j < |r| ensures key(r[i]) >= key(r[j]) {
      InsertDescAt(x, s, key, i);
      InsertDescAt(x, s, key, j);
    }
  }

  /** Inserting adds exactly `x`. */
  lemma InsertDescAdds<T>(x: T, s: seq<T>, key: T -> int)
    ensures multiset(InsertDesc(x, s, key)) == multiset(s) + multiset{x}
    ensures |InsertDesc(x, s, key)| == |s| + 1
  {
    var m := LeadingAtLeast(s, key(x), key);
    assert s == s[..m] + s[m..];
  }

  /** What selection makes of the three parts of an insertion. */
  lemma KeepInsertDesc<T>(x: T, s: seq<T>, key: T -> int, p: T -> bool)
    ensures var m := LeadingAtLeast(s, key(x), key);
      Keep(InsertDesc(x, s, key), p) == Keep(s[..m], p) + Keep([x], p) + Keep(s[m..], p)
      && Keep(s, p) == Keep(s[..m], p) + Keep(s[m..], p)
  {
    var m := LeadingAtLeast(s, key(x), key);
    assert s == s[..m] + s[m..];
    KeepAppend(s[..m] + [x], s[m..], p);
    KeepAppend(s[..m], [x], p);
    KeepAppend(s[..m], s[m..], p);
  }

  /** Inserting `x` appends it to the elements of its own key, and leaves the other keys'
      elements alone. */
  lemma InsertDescStable<T>(x: T, s: seq<T>, key: T -> int, p: T -> bool, k: int)
    requires NonIncreasing(s, key)
    requires forall y :: p(y) == (key(y) == k)
    ensures Keep(InsertDesc(x, s, key), p) == Keep(s, p) + (if p(x) then [x] else [])
  {
    if p(x) {
      TrailingNotSelected(x, s, key, p, k);
    }
    InsertKeep(x, s, key, p);
  }

  /** When `x` is selected, nothing after the leading elements is: their keys are below `x`'s. */
  lemma TrailingNotSelected<T>(x: T, s: seq<T>, key: T -> int, p: T -> bool, k: int)
    requires NonIncreasing(s, key)
    requires forall y :: p(y) == (key(y) == k)
    requires p(x)
    ensures Keep(s[LeadingAtLeast(s, key(x), key)..], p) == []
  {
    var post := s[LeadingAtLeast(s, key(x), key)..];
    TrailingBelow(x, s, key);
    forall i | 0 <= i < |post| ensures !p(post[i]) {
      assert key(post[i]) < key(x);
    }
    KeepNone(post, p);
  }

  /** Selection after an insertion, when a selected `x` has nothing selected after it. */
  lemma InsertKeep<T>(x: T, s: seq<T>, key: T -> int, p: T -> bool)
    requires p(x) ==> Keep(s[LeadingAtLeast(s, key(x), key)..], p) == []
    ensures Keep(InsertDesc(x, s, key), p) == Keep(s, p) + (if p(x) then [x] else [])
  {
    var m := LeadingAtLeast(s, key(x), key);
    var pre, post := Keep(s[..m], p), Keep(s[m..], p);
    KeepInsertDesc(x, s, key, p);
    KeepSingle(x, p);
    if p(x) {
      assert post == [];
      assert pre + post == pre;
      assert pre + [x] + post == pre + [x];
    } else {
      assert pre + [] == pre;
      assert (pre + post) + [] == pre + post;
    }
  }

  /** Selecting from one element. */
  lemma KeepSingle<T>(x: T, p: T -> bool)
    ensures Keep([x], p) == if p(x) then [x] else []
  {
    assert [x][..0] == [];
  }

  /** In a sorted sequence, the elements after the leading ones have keys below `x`'s. */
  lemma TrailingBelow<T>(x: T, s: seq<T>, key: T -> int)
    requires NonIncreasing(s, key)
    ensures var post := s[LeadingAtLeast(s, key(x), key)..];
      forall i :: 0 <= i < |post| ==> key(post[i]) < key(x)
  {
    var m := LeadingAtLeast(s, key(x), key);
    forall i | 0 <= i < |s| - m ensures key(s[m..][i]) < key(x) {
      assert s[m..][i] == s[m + i];
    }
  }

  /** The sort orders by non-increasing key and is a permutation of its input. */
  lemma SortDescSorted<T>(xs: seq<T>, key: T -> int)
    ensures NonIncreasing(SortDesc(xs, key), key)
    ensures multiset(SortDesc(xs, key)) == multiset(xs)
    ensures |SortDesc(xs, key)| == |xs|
  {
    SortDescOrdered(xs, key);
    SortDescPermutes(xs, key);
  }

  /** The sort orders by non-increasing key. */
  lemma {:induction false} SortDescOrdered<T>(xs: seq<T>, key: T -> int)
    ensures NonIncreasing(SortDesc(xs, key), key)
  {
    if xs != [] {
      var init := xs[..|xs| - 1];
      SortDescOrdered(init, key);
      InsertDescOrdered(xs[|xs| - 1], SortDesc(init, key), key);
    }
  }

  /** The sort is a permutation of its input. */
  lemma {:induction false} SortDescPermutes<T>(xs: seq<T>, key: T -> int)
    ensures multiset(SortDesc(xs, key)) == multiset(xs)
    ensures |SortDesc(xs, key)| == |xs|
  {
    if xs != [] {
      var init, last := xs[..|xs| - 1], xs[|xs| - 1];
      SortDescPermutes(init, key);
      InsertDescAdds(last, SortDesc(init, key), key);
      SnocMultiset(xs);
    }
  }

  /** The elements of a non-empty sequence are those before its last one, and the last one. */
  lemma SnocMultiset<T>(xs: seq<T>)
    requires xs != []
    ensures multiset(xs) == multiset(xs[..|xs| - 1]) + multiset{xs[|xs| - 1]}
  {
    assert xs == xs[..|xs| - 1] + [xs[|xs| - 1]];
  }

  /** The sort is stable: the elements of any one key come out in their input order. */
  lemma {:induction false} SortDescStable<T>(xs: seq<T>, key: T -> int, p: T -> bool, k: int)
    requires forall y :: p(y) == (key(y) == k)
    ensures Keep(SortDesc(xs, key), p) == Keep(xs, p)
  {
    if xs != [] {
      var init := xs[..|xs| - 1];
      SortDescStable(init, key, p, k);
      SortDescSorted(init, key);
      InsertDescStable(xs[|xs| - 1], SortDesc(init, key), key, p, k);
    }
  }

  /** An element of a sequence has a position in any reordering of it. */
  lemma PermutedPosition<T>(r: seq<T>, m: seq<T>, j: nat) returns (k: nat)
    requires multiset(r) == multiset(m) && j < |m|
    ensures k < |r| && r[k] == m[j]
  {
    assert m[j] in multiset(r);
    k :| 0 <= k < |r| && r[k] == m[j];
  }

  /** An element occurs at most once in a sequence without repetitions. */
  lemma {:induction false} MultisetOfDistinct<T>(s: seq<T>, x: T)
    requires forall a, b :: 0 <= a < b < |s| ==> s[a] != s[b]
    ensures multiset(s)[x] <= 1
  {
    if s != [] {
      var init := s[..|s| - 1];
      MultisetOfDistinct(init, x);
      assert s == init + [s[|s| - 1]];
      if x == s[|s| - 1] {
        assert x !in init;
      }
    }
  }

  /** An element found at two positions occurs at least twice. */
  lemma MultisetTwice<T>(s: seq<T>, a: nat, b: nat)
    requires a < b < |s| && s[a] == s[b]
    ensures multiset(s)[s[a]] >= 2
  {
    assert s == s[..b] + [s[b]] + s[b + 1..];
    assert s[a] in s[..b];
  }

  /** Reordering keeps a key that tells the elements apart telling them apart. */
  lemma PermutationKeepsKeysDistinct<T, K>(s: seq<T>, t: seq<T>, f: T -> K)
    requires multiset(s) == multiset(t)
    requires forall a, b :: 0 <= a < b < |t| ==> f(t[a]) != f(t[b])
    ensures forall a, b :: 0 <= a < b < |s| ==> f(s[a]) != f(s[b])
  {
    forall a, b | 0 <= a < b < |s| ensures f(s[a]) != f(s[b]) {
      assert s[a] in multiset(t) && s[b] in multiset(t);
      var i :| 0 <= i < |t| && t[i] == s[a];
      var j :| 0 <= j < |t| && t[j] == s[b];
      if i == j {
        MultisetTwice(s, a, b);
        MultisetOfDistinct(t, s[a]);
      } else if i < j {
        assert f(t[i]) != f(t[j]);
      } else {
        assert f(t[j]) != f(t[i]);
      }
    }
  }
}
