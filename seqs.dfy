/** Order-preserving selection from sequences, and the subsequence relation. */
module Seqs {

  /** The elements of `xs` for which `keep` holds, in their original order: the
      shape of every "loop and append the survivors" filter in the pipeline. */
  function Filter<T>(xs: seq<T>, keep: T -> bool): (r: seq<T>)
    ensures |r| <= |xs|
    ensures forall i :: 0 <= i < |r| ==> r[i] in xs && keep(r[i])
    ensures forall i :: 0 <= i < |xs| && keep(xs[i]) ==> xs[i] in r
  {
    if xs == [] then []
    else
      var init := Filter(xs[..|xs| - 1], keep);
      assert xs == xs[..|xs| - 1] + [xs[|xs| - 1]];
      if keep(xs[|xs| - 1]) then init + [xs[|xs| - 1]] else init
  }

  /** `s` is obtained from `t` by deleting elements; the rest keep their order
      and are unchanged. */
  ghost predicate IsSubseq<T>(s: seq<T>, t: seq<T>)
    decreases |t|
  {
    s == [] ||
    (t != [] &&
     ((s[|s| - 1] == t[|t| - 1] && IsSubseq(s[..|s| - 1], t[..|t| - 1])) ||
      IsSubseq(s, t[..|t| - 1])))
  }

  /** Extending a prefix by one element extends its filtered form by that
      element exactly when it is kept. */
  lemma FilterStep<T>(xs: seq<T>, i: nat, keep: T -> bool)
    requires i < |xs|
    ensures Filter(xs[..i + 1], keep) == Filter(xs[..i], keep) + (if keep(xs[i]) then [xs[i]] else [])
  {
    assert xs[..i + 1][..i] == xs[..i];
  }

  lemma {:induction false} FilterAppend<T>(a: seq<T>, b: seq<T>, keep: T -> bool)
    ensures Filter(a + b, keep) == Filter(a, keep) + Filter(b, keep)
    decreases |b|
  {
    if b == [] {
      assert a + b == a;
    } else {
      var b' := b[..|b| - 1];
      assert (a + b)[..|a + b| - 1] == a + b';
      FilterAppend(a, b', keep);
    }
  }

  /** Each element is kept as many times as it occurs when it passes, and not
      at all otherwise. */
  lemma {:induction false} FilterCounts<T>(xs: seq<T>, keep: T -> bool)
    ensures forall x :: multiset(Filter(xs, keep))[x] == if keep(x) then multiset(xs)[x] else 0
  {
    if xs != [] {
      var init, last := xs[..|xs| - 1], xs[|xs| - 1];
      FilterCounts(init, keep);
      assert xs == init + [last];
      assert multiset(xs) == multiset(init) + multiset{last};
    }
  }

  lemma {:induction false} FilterKeepsAll<T>(xs: seq<T>, keep: T -> bool)
    requires forall i :: 0 <= i < |xs| ==> keep(xs[i])
    ensures Filter(xs, keep) == xs
  {
    if xs != [] {
      FilterKeepsAll(xs[..|xs| - 1], keep);
      assert xs == xs[..|xs| - 1] + [xs[|xs| - 1]];
    }
  }

  lemma {:induction false} FilterDropsAll<T>(xs: seq<T>, keep: T -> bool)
    requires forall i :: 0 <= i < |xs| ==> !keep(xs[i])
    ensures Filter(xs, keep) == []
  {
    if xs != [] {
      FilterDropsAll(xs[..|xs| - 1], keep);
    }
  }

  lemma {:induction false} SubseqRefl<T>(s: seq<T>)
    ensures IsSubseq(s, s)
    decreases |s|
  {
    if s != [] {
      SubseqRefl(s[..|s| - 1]);
    }
  }

  /** Appending one element to the longer sequence, or to both, keeps the relation. */
  lemma SubseqSnoc<T>(s: seq<T>, t: seq<T>, x: T)
    requires IsSubseq(s, t)
    ensures IsSubseq(s, t + [x])
    ensures IsSubseq(s + [x], t + [x])
  {
    assert (t + [x])[..|t|] == t;
    assert (s + [x])[..|s|] == s;
  }

  lemma {:induction false} SubseqTrans<T>(a: seq<T>, b: seq<T>, c: seq<T>)
    requires IsSubseq(a, b) && IsSubseq(b, c)
    ensures IsSubseq(a, c)
    decreases |c|
  {
    if a == [] {
    } else if IsSubseq(b, c[..|c| - 1]) {
      SubseqTrans(a, b, c[..|c| - 1]);
    } else if IsSubseq(a, b[..|b| - 1]) {
      SubseqTrans(a, b[..|b| - 1], c[..|c| - 1]);
    } else {
      SubseqTrans(a[..|a| - 1], b[..|b| - 1], c[..|c| - 1]);
    }
  }

  lemma {:induction false} PrefixIsSubseq<T>(t: seq<T>, k: nat)
    requires k <= |t|
    ensures IsSubseq(t[..k], t)
    decreases |t|
  {
    if k == |t| {
      assert t[..k] == t;
      SubseqRefl(t);
    } else {
      assert t[..|t| - 1][..k] == t[..k];
      PrefixIsSubseq(t[..|t| - 1], k);
    }
  }

  /** Every element of a subsequence occurs in the whole, and no more often. */
  lemma {:induction false} SubseqMultiset<T>(s: seq<T>, t: seq<T>)
    requires IsSubseq(s, t)
    ensures multiset(s) <= multiset(t)
    ensures forall i :: 0 <= i < |s| ==> s[i] in t
    decreases |t|
  {
    if s == [] {
    } else if IsSubseq(s, t[..|t| - 1]) {
      SubseqMultiset(s, t[..|t| - 1]);
      assert t == t[..|t| - 1] + [t[|t| - 1]];
    } else {
      SubseqMultiset(s[..|s| - 1], t[..|t| - 1]);
      assert t == t[..|t| - 1] + [t[|t| - 1]];
      assert s == s[..|s| - 1] + [s[|s| - 1]];
    }
    assert forall i :: 0 <= i < |s| ==> s[i] in multiset(s);
  }

  lemma {:induction false} FilterIsSubseq<T>(xs: seq<T>, keep: T -> bool)
    ensures IsSubseq(Filter(xs, keep), xs)
  {
    if xs == [] {
    } else {
      var init := xs[..|xs| - 1];
      FilterIsSubseq(init, keep);
      SubseqSnoc(Filter(init, keep), init, xs[|xs| - 1]);
      assert xs == init + [xs[|xs| - 1]];
    }
  }

  /** Filtering twice is filtering once by the conjunction, so the stages of a
      filter chain may be read as one pass. */
  lemma {:induction false} FilterFilter<T>(xs: seq<T>, p: T -> bool, q: T -> bool, pq: T -> bool)
    requires forall x :: pq(x) == (p(x) && q(x))
    ensures Filter(Filter(xs, p), q) == Filter(xs, pq)
  {
    if xs != [] {
      var init := xs[..|xs| - 1];
      var x := xs[|xs| - 1];
      FilterFilter(init, p, q, pq);
      if p(x) {
        FilterAppend(Filter(init, p), [x], q);
        assert Filter(Filter(init, p) + [x], q) == Filter(Filter(init, p), q) + Filter([x], q);
        assert Filter([x], q) == (if q(x) then [x] else []) by {
          assert [x][..0] == [];
        }
      }
    }
  }

  /** No element occurs twice. */
  predicate Distinct<T(==)>(s: seq<T>) {
    forall i, j :: 0 <= i < j < |s| ==> s[i] != s[j]
  }

  /** Filtering never duplicates an element. */
  lemma {:induction false} FilterDistinct<T>(xs: seq<T>, keep: T -> bool)
    ensures Distinct(xs) ==> Distinct(Filter(xs, keep))
  {
    if xs != [] && Distinct(xs) {
      var init := xs[..|xs| - 1];
      var x := xs[|xs| - 1];
      assert Distinct(init);
      FilterDistinct(init, keep);
      assert x !in init;
    }
  }

  /** Two tests that agree on every element of `xs` select the same elements. */
  lemma {:induction false} FilterCongruent<T>(xs: seq<T>, keep1: T -> bool, keep2: T -> bool)
    requires forall i :: 0 <= i < |xs| ==> keep1(xs[i]) == keep2(xs[i])
    ensures Filter(xs, keep1) == Filter(xs, keep2)
  {
    if xs != [] {
      FilterCongruent(xs[..|xs| - 1], keep1, keep2);
    }
  }
}
