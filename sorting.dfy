/** Python's `list.sort(key=...)` for the aggregator's `(distance, price)`
    keys: a stable sort under lexicographic tuple order, where a missing value
    is `float("inf")`. */
module Sorting {
  import opened Seqs

  /** A float that may be `+inf`. */
  datatype Ext = Finite(r: real) | Infinite

  /** `a <= b` on extended floats: `+inf` is above every finite value and
      equal to itself. */
  predicate ExtLe(a: Ext, b: Ext) {
    b.Infinite? || (a.Finite? && a.r <= b.r)
  }

  /** The sort key of one listing: distance to the centre, then price. */
  datatype SortKey = SortKey(distance: Ext, price: Ext)

  /** Tuple comparison `a <= b`: the distances decide unless they are equal,
      then the prices. */
  predicate KeyLe(a: SortKey, b: SortKey) {
    (ExtLe(a.distance, b.distance) && a.distance != b.distance) ||
    (a.distance == b.distance && ExtLe(a.price, b.price))
  }

  /** Tuple comparison `a < b`. */
  predicate KeyLt(a: SortKey, b: SortKey) {
    !KeyLe(b, a)
  }

  lemma ExtLeTotal(a: Ext, b: Ext)
    ensures ExtLe(a, b) || ExtLe(b, a)
    ensures ExtLe(a, b) && ExtLe(b, a) ==> a == b
  {
  }

  /** Tuple order is a total order on keys. */
  lemma KeyOrder(a: SortKey, b: SortKey, c: SortKey)
    ensures KeyLe(a, a)
    ensures KeyLe(a, b) || KeyLe(b, a)
    ensures KeyLe(a, b) && KeyLe(b, a) ==> a == b
    ensures KeyLe(a, b) && KeyLe(b, c) ==> KeyLe(a, c)
    ensures KeyLt(a, b) ==> KeyLe(a, b) && a != b
  {
    ExtLeTotal(a.distance, b.distance);
    ExtLeTotal(a.price, b.price);
  }

  /** Ascending by key. */
  predicate SortedBy<T>(xs: seq<T>, key: T -> SortKey) {
    forall i, j :: 0 <= i < j < |xs| ==> KeyLe(key(xs[i]), key(xs[j]))
  }

  /** Put `x` after every element whose key is not greater than its own. */
  function Insert<T>(s: seq<T>, x: T, key: T -> SortKey): (r: seq<T>)
    ensures |r| == |s| + 1
    ensures multiset(r) == multiset(s) + multiset{x}
  {
    if s == [] then [x]
    else
      var init := s[..|s| - 1];
      var last := s[|s| - 1];
      assert s == init + [last];
      if KeyLt(key(x), key(last)) then Insert(init, x, key) + [last] else s + [x]
  }

  /** Sort by inserting the elements in input order. */
  function StableSort<T>(xs: seq<T>, key: T -> SortKey): (r: seq<T>)
    ensures |r| == |xs|
    ensures multiset(r) == multiset(xs)
  {
    if xs == [] then []
    else
      assert xs == xs[..|xs| - 1] + [xs[|xs| - 1]];
      Insert(StableSort(xs[..|xs| - 1], key), xs[|xs| - 1], key)
  }

  /** Inserting into a sorted sequence keeps it sorted. */
  lemma {:induction false} InsertSorted<T>(s: seq<T>, x: T, key: T -> SortKey)
    requires SortedBy(s, key)
    ensures SortedBy(Insert(s, x, key), key)
  {
    if s != [] {
      var init := s[..|s| - 1];
      var last := s[|s| - 1];
      if KeyLt(key(x), key(last)) {
        InsertSorted(init, x, key);
        KeyOrder(key(x), key(last), key(last));
        InsertKeepsAll(init, x, key, y => KeyLe(key(y), key(last)));
        SortedSnoc(Insert(init, x, key), last, key);
      } else {
        forall i | 0 <= i < |s|
          ensures KeyLe(key(s[i]), key(x))
        {
          KeyOrder(key(s[i]), key(last), key(x));
        }
        SortedSnoc(s, x, key);
      }
    }
  }

  /** A property every element and `x` share holds of every element after
      the insertion. */
  lemma InsertKeepsAll<T>(s: seq<T>, x: T, key: T -> SortKey, p: T -> bool)
    requires forall k :: 0 <= k < |s| ==> p(s[k])
    requires p(x)
    ensures forall i :: 0 <= i < |Insert(s, x, key)| ==> p(Insert(s, x, key)[i])
  {
    var r := Insert(s, x, key);
    forall i | 0 <= i < |r|
      ensures p(r[i])
    {
      assert r[i] in multiset(r);
      if r[i] != x {
        assert r[i] in multiset(s);
        var k :| 0 <= k < |s| && s[k] == r[i];
      }
    }
  }

  /** Appending an element whose key bounds every key keeps a list sorted. */
  lemma SortedSnoc<T>(r: seq<T>, last: T, key: T -> SortKey)
    requires SortedBy(r, key)
    requires forall i :: 0 <= i < |r| ==> KeyLe(key(r[i]), key(last))
    ensures SortedBy(r + [last], key)
  {
    forall i, j | 0 <= i < j < |r + [last]|
      ensures KeyLe(key((r + [last])[i]), key((r + [last])[j]))
    {
      assert (r + [last])[i] == r[i];
      if j < |r| {
        assert (r + [last])[j] == r[j];
      }
    }
  }

  /** The elements whose key equals `k`. */
  function SameKey<T>(key: T -> SortKey, k: SortKey): T -> bool {
    y => key(y) == k
  }

  /** Inserting `x` puts it after every element already there with the same key. */
  lemma {:induction false} InsertKeepsTies<T>(s: seq<T>, x: T, key: T -> SortKey, k: SortKey)
    ensures Filter(Insert(s, x, key), SameKey(key, k)) ==
              Filter(s, SameKey(key, k)) + (if key(x) == k then [x] else [])
  {
    if s == [] {
      assert Insert(s, x, key) == [x];
      assert [x][..0] == [];
    } else if KeyLt(key(x), key(s[|s| - 1])) {
      InsertKeepsTies(s[..|s| - 1], x, key, k);
      InsertBeforeLastKeepsTies(s, x, key, k);
    } else {
      InsertAtEndKeepsTies(s, x, key, k);
    }
  }

  /** The step where `x` goes before the last element, given the claim for the
      elements before it. */
  lemma {:induction false} InsertBeforeLastKeepsTies<T>(s: seq<T>, x: T, key: T -> SortKey, k: SortKey)
    requires s != [] && KeyLt(key(x), key(s[|s| - 1]))
    requires Filter(Insert(s[..|s| - 1], x, key), SameKey(key, k)) ==
               Filter(s[..|s| - 1], SameKey(key, k)) + (if key(x) == k then [x] else [])
    ensures Filter(Insert(s, x, key), SameKey(key, k)) ==
              Filter(s, SameKey(key, k)) + (if key(x) == k then [x] else [])
  {
    var init := s[..|s| - 1];
    var last := s[|s| - 1];
    assert Insert(s, x, key) == Insert(init, x, key) + [last];
    assert init + [last] == s;
    TiesCommute(x, last, key, k);
    FilterSnocSwap(init, Insert(init, x, key), x, last, SameKey(key, k));
  }

  /** If filtering `t` gives the filtered `init` followed by `x` (when kept),
      and at most one of `x` and `last` is kept, then appending `last` to
      both sides keeps that shape. */
  lemma {:induction false} FilterSnocSwap<T>(init: seq<T>, t: seq<T>, x: T, last: T, keep: T -> bool)
    requires Filter(t, keep) == Filter(init, keep) + (if keep(x) then [x] else [])
    requires !keep(x) || !keep(last)
    ensures Filter(t + [last], keep) == Filter(init + [last], keep) + (if keep(x) then [x] else [])
  {
    assert (t + [last])[..|t|] == t;
    assert (init + [last])[..|init|] == init;
  }

  /** An element that sorts strictly before `last` never shares a key with
      it, so a filter on one key keeps at most one of the two. */
  lemma TiesCommute<T>(x: T, last: T, key: T -> SortKey, k: SortKey)
    requires KeyLt(key(x), key(last))
    ensures key(x) != k || key(last) != k
  {
    KeyOrder(key(x), key(last), key(last));
  }

  /** The step where `x` goes at the end. */
  lemma {:induction false} InsertAtEndKeepsTies<T>(s: seq<T>, x: T, key: T -> SortKey, k: SortKey)
    requires s != [] && !KeyLt(key(x), key(s[|s| - 1]))
    ensures Filter(Insert(s, x, key), SameKey(key, k)) ==
              Filter(s, SameKey(key, k)) + (if key(x) == k then [x] else [])
  {
    assert Insert(s, x, key) == s + [x];
    assert [x][..0] == [];
    FilterAppend(s, [x], SameKey(key, k));
  }

  /** The sort's output is ordered by the key. */
  lemma {:induction false} StableSortSorted<T>(xs: seq<T>, key: T -> SortKey)
    ensures SortedBy(StableSort(xs, key), key)
  {
    if xs != [] {
      var init := xs[..|xs| - 1];
      StableSortSorted(init, key);
      InsertSorted(StableSort(init, key), xs[|xs| - 1], key);
    }
  }

  /** The sort keeps the elements of each key in their input order. */
  lemma {:induction false} StableSortTies<T>(xs: seq<T>, key: T -> SortKey, k: SortKey)
    ensures Filter(StableSort(xs, key), SameKey(key, k)) == Filter(xs, SameKey(key, k))
  {
    if xs != [] {
      var init := xs[..|xs| - 1];
      var x := xs[|xs| - 1];
      StableSortTies(init, key, k);
      InsertKeepsTies(StableSort(init, key), x, key, k);
    }
  }

  /** The sort is a sorted permutation of its input that keeps elements with
      equal keys in their input order. */
  lemma StableSortCorrect<T>(xs: seq<T>, key: T -> SortKey)
    ensures SortedBy(StableSort(xs, key), key)
    ensures multiset(StableSort(xs, key)) == multiset(xs)
    ensures forall k :: Filter(StableSort(xs, key), SameKey(key, k)) == Filter(xs, SameKey(key, k))
  {
    StableSortSorted(xs, key);
    forall k
      ensures Filter(StableSort(xs, key), SameKey(key, k)) == Filter(xs, SameKey(key, k))
    {
      StableSortTies(xs, key, k);
    }
  }
}
