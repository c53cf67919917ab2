/** `Array.prototype.filter` and the facts about it the components rely on. */
module Seqs {

  /** `xs.filter(keep)`: the elements satisfying `keep`, in their original order. */
  function Filter<T>(xs: seq<T>, keep: T -> bool): (r: seq<T>)
    ensures |r| <= |xs|
    ensures forall k :: 0 <= k < |r| ==> keep(r[k])
  {
    if |xs| == 0 then []
    else (if keep(xs[0]) then [xs[0]] else []) + Filter(xs[1..], keep)
  }

  /** An element survives the filter exactly when it was there and is kept. */
  lemma {:induction false} FilterMembership<T>(xs: seq<T>, keep: T -> bool, x: T)
    ensures x in Filter(xs, keep) <==> x in xs && keep(x)
  {
    if xs != [] {
      FilterMembership(xs[1..], keep, x);
      assert xs == [xs[0]] + xs[1..];
    }
  }

  /** `FilterMembership` for every value at once. */
  lemma FilterMembers<T>(xs: seq<T>, keep: T -> bool)
    ensures forall x :: x in Filter(xs, keep) <==> x in xs && keep(x)
  {
    forall x ensures x in Filter(xs, keep) <==> x in xs && keep(x) {
      FilterMembership(xs, keep, x);
    }
  }

  /** Filtering works piecewise, so the relative order of the survivors is kept. */
  lemma {:induction false} FilterAppend<T>(xs: seq<T>, ys: seq<T>, keep: T -> bool)
    ensures Filter(xs + ys, keep) == Filter(xs, keep) + Filter(ys, keep)
  {
    if |xs| == 0 {
      assert xs + ys == ys;
    } else {
      assert (xs + ys)[1..] == xs[1..] + ys;
      FilterAppend(xs[1..], ys, keep);
    }
  }

  /** A filter that rejects nothing returns its input unchanged. */
  lemma {:induction false} FilterKeepsAll<T>(xs: seq<T>, keep: T -> bool)
    requires forall k :: 0 <= k < |xs| ==> keep(xs[k])
    ensures Filter(xs, keep) == xs
  {
    if xs != [] {
      FilterKeepsAll(xs[1..], keep);
    }
  }

  /** The filter is empty exactly when it rejects every element. */
  lemma {:induction false} FilterEmpty<T>(xs: seq<T>, keep: T -> bool)
    ensures Filter(xs, keep) == [] <==> forall k :: 0 <= k < |xs| ==> !keep(xs[k])
  {
    if xs != [] {
      FilterEmpty(xs[1..], keep);
      assert forall k :: 1 <= k < |xs| ==> xs[k] == xs[1..][k - 1];
    }
  }

  /** The first survivor of a filter is the earliest kept element: every element before it is rejected. */
  lemma {:induction false} FilterFirst<T>(xs: seq<T>, keep: T -> bool)
    ensures Filter(xs, keep) != [] ==>
      exists i :: 0 <= i < |xs| && Filter(xs, keep)[0] == xs[i] && keep(xs[i]) && forall j :: 0 <= j < i ==> !keep(xs[j])
  {
    if |xs| > 0 && !keep(xs[0]) {
      FilterFirst(xs[1..], keep);
      if Filter(xs, keep) != [] {
        var i :| 0 <= i < |xs[1..]| && Filter(xs[1..], keep)[0] == xs[1..][i] && keep(xs[1..][i])
          && forall j :: 0 <= j < i ==> !keep(xs[1..][j]);
        assert forall j :: 1 <= j < i + 1 ==> xs[j] == xs[1..][j - 1];
        assert Filter(xs, keep)[0] == xs[i + 1];
      }
    }
  }

  /** The sequences `f` gives for the elements, concatenated in order. */
  function FlatMap<T, U>(xs: seq<T>, f: T -> seq<U>): seq<U>
  {
    if |xs| == 0 then [] else f(xs[0]) + FlatMap(xs[1..], f)
  }

  /** Mapping works piecewise. */
  lemma {:induction false} FlatMapAppend<T, U>(xs: seq<T>, ys: seq<T>, f: T -> seq<U>)
    ensures FlatMap(xs + ys, f) == FlatMap(xs, f) + FlatMap(ys, f)
  {
    if |xs| == 0 {
      assert xs + ys == ys;
    } else {
      assert (xs + ys)[0] == xs[0];
      assert (xs + ys)[1..] == xs[1..] + ys;
      FlatMapAppend(xs[1..], ys, f);
    }
  }

  /** The values paired with `k`, in order. */
  function ValuesOf<K(==), V>(ps: seq<(K, V)>, k: K): seq<V>
  {
    if |ps| == 0 then [] else (if ps[0].0 == k then [ps[0].1] else []) + ValuesOf(ps[1..], k)
  }

  /** Looking up values works piecewise. */
  lemma {:induction false} ValuesOfAppend<K, V>(a: seq<(K, V)>, b: seq<(K, V)>, k: K)
    ensures ValuesOf(a + b, k) == ValuesOf(a, k) + ValuesOf(b, k)
  {
    if |a| == 0 {
      assert a + b == b;
    } else {
      var head: seq<V> := if a[0].0 == k then [a[0].1] else [];
      var ab := a + b;
      assert ab[0] == a[0];
      assert ab[1..] == a[1..] + b;
      assert ValuesOf(ab, k) == head + ValuesOf(a[1..] + b, k);
      ValuesOfAppend(a[1..], b, k);
      assert ValuesOf(a, k) == head + ValuesOf(a[1..], k);
      assert head + (ValuesOf(a[1..], k) + ValuesOf(b, k)) == (head + ValuesOf(a[1..], k)) + ValuesOf(b, k);
    }
  }

  /** The element at `index` removed; the others keep their order. An index out of range removes nothing. */
  function RemoveAt<T>(xs: seq<T>, index: int): (r: seq<T>)
    ensures 0 <= index < |xs| ==> r == xs[..index] + xs[index + 1..]
    ensures !(0 <= index < |xs|) ==> r == xs
  {
    if |xs| == 0 then []
    else
      var rest := RemoveAt(xs[1..], index - 1);
      if index == 0 then
        rest
      else
        assert 0 < index < |xs| ==> xs[1..][..index - 1] == xs[1..index];
        assert 0 < index < |xs| ==> xs[1..][index..] == xs[index + 1..];
        assert 0 < index < |xs| ==> xs[..index] == [xs[0]] + xs[1..index];
        [xs[0]] + rest
  }

  /** No value occurs twice. */
  predicate NoDuplicates<T(==)>(xs: seq<T>) {
    forall i, j :: 0 <= i < j < |xs| ==> xs[i] != xs[j]
  }
}
