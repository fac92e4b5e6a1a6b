/**
 * Generic sequence operations: the flat-map the comparator is a fold of, and
 * the name lookups the source builds with `HashMap::collect` (a later entry
 * with the same name overwrites an earlier one).
 */
module Seqs {
  import opened Wrappers

  /** `f(x)` for every `x` of `xs`, concatenated in order. */
  function FlatMap<T, U>(xs: seq<T>, f: T -> seq<U>): seq<U>
  {
    if |xs| == 0 then [] else FlatMap(xs[..|xs| - 1], f) + f(xs[|xs| - 1])
  }

  lemma FlatMapSnoc<T, U>(xs: seq<T>, x: T, f: T -> seq<U>)
    ensures FlatMap(xs + [x], f) == FlatMap(xs, f) + f(x)
  {
    assert (xs + [x])[..|xs|] == xs;
  }

  lemma {:induction false} FlatMapAppend<T, U>(xs: seq<T>, ys: seq<T>, f: T -> seq<U>)
    ensures FlatMap(xs + ys, f) == FlatMap(xs, f) + FlatMap(ys, f)
    decreases |ys|
  {
    if |ys| > 0 {
      var ys' := ys[..|ys| - 1];
      var y := ys[|ys| - 1];
      assert ys == ys' + [y];
      assert xs + ys == (xs + ys') + [y];
      FlatMapAppend(xs, ys', f);
      FlatMapSnoc(xs + ys', y, f);
      FlatMapSnoc(ys', y, f);
    } else {
      assert xs + ys == xs;
    }
  }

  /** Every element of the flat-map comes from one input element and satisfies `p` if all pieces do. */
  lemma {:induction false} FlatMapAll<T, U>(xs: seq<T>, f: T -> seq<U>, p: U -> bool)
    requires forall i, k :: 0 <= i < |xs| && 0 <= k < |f(xs[i])| ==> p(f(xs[i])[k])
    ensures forall k :: 0 <= k < |FlatMap(xs, f)| ==> p(FlatMap(xs, f)[k])
    decreases |xs|
  {
    if |xs| > 0 {
      var xs' := xs[..|xs| - 1];
      assert forall i :: 0 <= i < |xs'| ==> xs'[i] == xs[i];
      FlatMapAll(xs', f, p);
      var a := FlatMap(xs', f);
      var b := f(xs[|xs| - 1]);
      forall k | 0 <= k < |a + b|
        ensures p((a + b)[k])
      {
        if k >= |a| {
          assert (a + b)[k] == b[k - |a|];
        }
      }
    }
  }

  /** The flat-map is empty when every piece is. */
  lemma {:induction false} FlatMapNone<T, U>(xs: seq<T>, f: T -> seq<U>)
    requires forall i :: 0 <= i < |xs| ==> f(xs[i]) == []
    ensures FlatMap(xs, f) == []
    decreases |xs|
  {
    if |xs| > 0 {
      var xs' := xs[..|xs| - 1];
      assert forall i :: 0 <= i < |xs'| ==> xs'[i] == xs[i];
      FlatMapNone(xs', f);
    }
  }

  /** The elements of `xs` that satisfy `p`, in their original order. */
  function Filter<T>(xs: seq<T>, p: T -> bool): (r: seq<T>)
    ensures |r| <= |xs|
  {
    if |xs| == 0 then []
    else Filter(xs[..|xs| - 1], p) + (if p(xs[|xs| - 1]) then [xs[|xs| - 1]] else [])
  }

  lemma {:induction false} FilterAppend<T>(xs: seq<T>, ys: seq<T>, p: T -> bool)
    ensures Filter(xs + ys, p) == Filter(xs, p) + Filter(ys, p)
    decreases |ys|
  {
    if |ys| > 0 {
      var ys' := ys[..|ys| - 1];
      assert ys == ys' + [ys[|ys| - 1]];
      assert (xs + ys)[..|xs + ys| - 1] == xs + ys';
      FilterAppend(xs, ys', p);
    } else {
      assert xs + ys == xs;
    }
  }

  /** Filtering keeps nothing when no element satisfies `p`. */
  lemma {:induction false} FilterNone<T>(xs: seq<T>, p: T -> bool)
    requires forall i :: 0 <= i < |xs| ==> !p(xs[i])
    ensures Filter(xs, p) == []
    decreases |xs|
  {
    if |xs| > 0 {
      FilterNone(xs[..|xs| - 1], p);
    }
  }

  /** Filtering keeps everything when every element satisfies `p`. */
  lemma {:induction false} FilterAll<T>(xs: seq<T>, p: T -> bool)
    requires forall i :: 0 <= i < |xs| ==> p(xs[i])
    ensures Filter(xs, p) == xs
    decreases |xs|
  {
    if |xs| > 0 {
      FilterAll(xs[..|xs| - 1], p);
    }
  }

  /** Every element that satisfies `p` survives filtering. */
  lemma {:induction false} FilterHas<T>(xs: seq<T>, p: T -> bool, i: nat)
    requires i < |xs| && p(xs[i])
    ensures xs[i] in Filter(xs, p)
    decreases |xs|
  {
    var n := |xs| - 1;
    if i < n {
      FilterHas(xs[..n], p, i);
      assert xs[..n][i] == xs[i];
    }
  }

  /** Filtering keeps only elements of `xs` that satisfy `p`. */
  lemma {:induction false} FilterSatisfies<T>(xs: seq<T>, p: T -> bool)
    ensures forall x :: x in Filter(xs, p) ==> x in xs && p(x)
    decreases |xs|
  {
    if |xs| > 0 {
      var n := |xs| - 1;
      FilterSatisfies(xs[..n], p);
      forall x | x in xs[..n]
        ensures x in xs
      {
        var j :| 0 <= j < n && xs[..n][j] == x;
        assert xs[j] == x;
      }
    }
  }

  /** `f` applied to each element, in order. */
  function Map<T, U>(xs: seq<T>, f: T -> U): (r: seq<U>)
    ensures |r| == |xs|
    ensures forall i :: 0 <= i < |xs| ==> r[i] == f(xs[i])
  {
    seq(|xs|, i requires 0 <= i < |xs| => f(xs[i]))
  }

  /**
   * When every piece `f(x)` contributes, after filtering with `p`, exactly
   * `h(x)` if `q(x)` and nothing otherwise, the filtered flat-map is one
   * `h(x)` per element `x` satisfying `q`, in input order.
   */
  lemma {:induction false} FilterFlatMapSingletons<T, U>(xs: seq<T>, f: T -> seq<U>, p: U -> bool, q: T -> bool, h: T -> U)
    requires forall i :: 0 <= i < |xs| ==> Filter(f(xs[i]), p) == (if q(xs[i]) then [h(xs[i])] else [])
    ensures Filter(FlatMap(xs, f), p) == Map(Filter(xs, q), h)
    decreases |xs|
  {
    if |xs| > 0 {
      var xs' := xs[..|xs| - 1];
      var x := xs[|xs| - 1];
      assert forall i :: 0 <= i < |xs'| ==> xs'[i] == xs[i];
      FilterFlatMapSingletons(xs', f, p, q, h);
      assert FlatMap(xs, f) == FlatMap(xs', f) + f(x);
      FilterAppend(FlatMap(xs', f), f(x), p);
      var tail := if q(x) then [h(x)] else [];
      var kept := if q(x) then [x] else [];
      assert Filter(f(x), p) == tail;
      assert Filter(FlatMap(xs, f), p) == Map(Filter(xs', q), h) + tail;
      assert Filter(xs, q) == Filter(xs', q) + kept;
      MapAppend(Filter(xs', q), kept, h);
      assert Map(kept, h) == tail;
    }
  }

  lemma MapAppend<T, U>(xs: seq<T>, ys: seq<T>, h: T -> U)
    ensures Map(xs + ys, h) == Map(xs, h) + Map(ys, h)
  {
  }

  // ---------------------------------------------------------------------------
  // Name-keyed lookups
  // ---------------------------------------------------------------------------

  /** `map.contains_key(k)` for a map collected from `xs`: some element has key `k`. */
  predicate HasKey<T>(xs: seq<T>, key: T -> string, k: string)
  {
    exists i :: 0 <= i < |xs| && key(xs[i]) == k
  }

  /**
   * `map.get(k)` for a map collected from `xs`: the LAST element with key `k`,
   * because each later insertion overwrites the earlier one.
   */
  function LastWithKey<T>(xs: seq<T>, key: T -> string, k: string): (r: Option<T>)
    ensures r.Some? <==> HasKey(xs, key, k)
    ensures r.Some? ==> exists i :: 0 <= i < |xs| && xs[i] == r.value && key(xs[i]) == k &&
                          forall j :: i < j < |xs| ==> key(xs[j]) != k
  {
    if |xs| == 0 then None
    else if key(xs[|xs| - 1]) == k then Some(xs[|xs| - 1])
    else
      var r := LastWithKey(xs[..|xs| - 1], key, k);
      assert forall i :: 0 <= i < |xs| - 1 ==> xs[..|xs| - 1][i] == xs[i];
      r
  }

  /** The FIRST element with key `k`: the one whose row creates a `HashMap` entry via `entry(k).or_insert(..)`. */
  function FirstWithKey<T>(xs: seq<T>, key: T -> string, k: string): (r: Option<T>)
    ensures r.Some? <==> HasKey(xs, key, k)
    ensures r.Some? ==> exists i :: 0 <= i < |xs| && xs[i] == r.value && key(xs[i]) == k &&
                          forall j :: 0 <= j < i ==> key(xs[j]) != k
  {
    if |xs| == 0 then None
    else
      var init := xs[..|xs| - 1];
      assert forall i :: 0 <= i < |init| ==> init[i] == xs[i];
      match FirstWithKey(init, key, k)
      case Some(x) => Some(x)
      case None => if key(xs[|xs| - 1]) == k then Some(xs[|xs| - 1]) else None
  }

  /** No two elements share a key. */
  predicate UniqueKeys<T>(xs: seq<T>, key: T -> string)
  {
    forall i, j :: 0 <= i < j < |xs| ==> key(xs[i]) != key(xs[j])
  }

  /** With unique keys, looking an element up by its own key finds that element. */
  lemma LastWithKeyUnique<T>(xs: seq<T>, key: T -> string, i: nat)
    requires UniqueKeys(xs, key) && i < |xs|
    ensures LastWithKey(xs, key, key(xs[i])) == Some(xs[i])
  {
    var r := LastWithKey(xs, key, key(xs[i]));
    assert HasKey(xs, key, key(xs[i]));
    var j :| 0 <= j < |xs| && xs[j] == r.value && key(xs[j]) == key(xs[i]) &&
             forall m :: j < m < |xs| ==> key(xs[m]) != key(xs[i]);
    assert j == i;
  }

  /**
   * The map `xs.iter().map(|x| (key(x), x)).collect()` builds: it holds exactly
   * the keys of `xs`, and each key maps to the last element carrying it.
   */
  function Collect<T>(xs: seq<T>, key: T -> string): (m: map<string, T>)
    ensures forall k :: k in m <==> HasKey(xs, key, k)
    ensures forall k :: k in m ==> LastWithKey(xs, key, k) == Some(m[k])
  {
    if |xs| == 0 then map[]
    else
      var init := xs[..|xs| - 1];
      var x := xs[|xs| - 1];
      assert forall i :: 0 <= i < |init| ==> init[i] == xs[i];
      assert forall k :: HasKey(xs, key, k) <==> HasKey(init, key, k) || key(x) == k;
      Collect(init, key)[key(x) := x]
  }
}
