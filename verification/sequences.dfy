/** Rendering a list of items block by block: each item yields a run of
    output, and the runs are laid end to end in the order of the items. */
module Sequences {

  function FlatMap<T, U>(f: T -> seq<U>, xs: seq<T>): seq<U> {
    if xs == [] then [] else FlatMap(f, xs[..|xs| - 1]) + f(xs[|xs| - 1])
  }

  /** One more item appends its run: the step of a loop that appends item
      `i`'s run to an output holding the runs of the items before it. */
  lemma FlatMapSnoc<T, U>(f: T -> seq<U>, start: seq<U>, prev: seq<U>, xs: seq<T>, i: nat)
    requires i < |xs|
    requires prev == start + FlatMap(f, xs[..i])
    ensures prev + f(xs[i]) == start + FlatMap(f, xs[..i + 1])
  {
    var ys := xs[..i + 1];
    assert ys[..i] == xs[..i];
    assert ys[i] == xs[i];
  }

  /** The runs of two lists of items are the runs of the first, then those
      of the second. */
  lemma {:induction false} FlatMapAppend<T, U>(f: T -> seq<U>, a: seq<T>, b: seq<T>)
    ensures FlatMap(f, a + b) == FlatMap(f, a) + FlatMap(f, b)
    decreases |b|
  {
    if b == [] {
      assert a + b == a;
    } else {
      var ab := a + b;
      assert ab[..|ab| - 1] == a + b[..|b| - 1];
      assert ab[|ab| - 1] == b[|b| - 1];
      FlatMapAppend(f, a, b[..|b| - 1]);
    }
  }

  /** An element of the output comes from the run of some item, and every
      element of every item's run is in the output. */
  lemma {:induction false} FlatMapMember<T, U>(f: T -> seq<U>, xs: seq<T>, u: U)
    ensures u in FlatMap(f, xs) <==> exists i :: 0 <= i < |xs| && u in f(xs[i])
  {
    if xs != [] {
      var init := xs[..|xs| - 1];
      FlatMapMember(f, init, u);
      if u in FlatMap(f, xs) {
        if u !in FlatMap(f, init) {
          assert u in f(xs[|xs| - 1]);
        } else {
          var i :| 0 <= i < |init| && u in f(init[i]);
          assert init[i] == xs[i];
        }
      }
      if exists i :: 0 <= i < |xs| && u in f(xs[i]) {
        var i :| 0 <= i < |xs| && u in f(xs[i]);
        if i < |init| {
          assert init[i] == xs[i];
        }
      }
    }
  }

  /** Items whose runs are all empty yield nothing. */
  lemma {:induction false} FlatMapEmpty<T, U>(f: T -> seq<U>, xs: seq<T>)
    requires forall i :: 0 <= i < |xs| ==> f(xs[i]) == []
    ensures FlatMap(f, xs) == []
  {
    if xs != [] {
      var init := xs[..|xs| - 1];
      assert forall i :: 0 <= i < |init| ==> init[i] == xs[i];
      FlatMapEmpty(f, init);
    }
  }

  /** Items that each yield exactly one element yield one element apiece,
      in the order of the items. */
  lemma {:induction false} FlatMapSingletons<T, U>(f: T -> seq<U>, xs: seq<T>)
    requires forall i :: 0 <= i < |xs| ==> |f(xs[i])| == 1
    ensures |FlatMap(f, xs)| == |xs|
    ensures forall i :: 0 <= i < |xs| ==> FlatMap(f, xs)[i] == f(xs[i])[0]
  {
    if xs != [] {
      var init := xs[..|xs| - 1];
      assert forall i :: 0 <= i < |init| ==> init[i] == xs[i];
      FlatMapSingletons(f, init);
      var out := FlatMap(f, xs);
      assert out == FlatMap(f, init) + f(xs[|xs| - 1]);
      forall i | 0 <= i < |xs| ensures out[i] == f(xs[i])[0] {
        if i < |init| {
          assert out[i] == FlatMap(f, init)[i];
        }
      }
    }
  }

  /** Two lists of items whose runs agree item by item yield the same
      output. */
  lemma {:induction false} FlatMapPointwise<T, U>(f: T -> seq<U>, xs: seq<T>, ys: seq<T>)
    requires |xs| == |ys|
    requires forall i :: 0 <= i < |xs| ==> f(xs[i]) == f(ys[i])
    ensures FlatMap(f, xs) == FlatMap(f, ys)
  {
    if xs != [] {
      var n := |xs| - 1;
      assert forall i :: 0 <= i < n ==> xs[..n][i] == xs[i] && ys[..n][i] == ys[i];
      FlatMapPointwise(f, xs[..n], ys[..n]);
    }
  }

  /** A sequence is its prefix followed by the rest. */
  lemma PrefixThenRest<T>(p: seq<T>, s: seq<T>)
    requires p <= s
    ensures s == p + s[|p|..]
  {
  }

  lemma EmptyThen<T>(s: seq<T>)
    ensures [] + s == s
  {
  }

  /** A non-empty sequence is its head followed by its tail. */
  lemma FirstThenRest<T>(s: seq<T>)
    requires s != []
    ensures s == [s[0]] + s[1..]
  {
  }

  lemma ConcatAssoc<T>(a: seq<T>, b: seq<T>, c: seq<T>, d: seq<T>)
    ensures a + b + c + d == a + (b + c + d)
  {
  }

  /** The head and the tail of a sequence built from a head and a tail. */
  lemma ConsParts<T>(x: T, r: seq<T>)
    ensures ([x] + r)[0] == x && ([x] + r)[1..] == r && |[x] + r| == |r| + 1
  {
  }

  /** Cutting a concatenation at the end of its first part gives the parts. */
  lemma PrefixOfConcat<T>(a: seq<T>, b: seq<T>)
    ensures (a + b)[..|a|] == a && (a + b)[|a|..] == b
  {
  }

  /** `xs.filter((_, i) => i !== index)`: the elements at every index but
      `index`, in order. */
  function ExceptIndex<T>(xs: seq<T>, index: int): seq<T> {
    if xs == [] then []
    else ExceptIndex(xs[..|xs| - 1], index) + (if |xs| - 1 == index then [] else [xs[|xs| - 1]])
  }

  /** Filtering out an index removes exactly the element there when the
      index is in range, and nothing otherwise. */
  lemma {:induction false} ExceptIndexSlices<T>(xs: seq<T>, index: int)
    ensures 0 <= index < |xs| ==> ExceptIndex(xs, index) == xs[..index] + xs[index + 1..]
    ensures !(0 <= index < |xs|) ==> ExceptIndex(xs, index) == xs
  {
    if xs != [] {
      var n := |xs| - 1;
      var init := xs[..n];
      ExceptIndexSlices(init, index);
      if 0 <= index < n {
        assert init[..index] == xs[..index];
        assert init[index + 1..] + [xs[n]] == xs[index + 1..];
      } else if index == n {
        assert init == xs[..index];
        assert xs[index + 1..] == [];
      } else {
        assert init + [xs[n]] == xs;
      }
    }
  }
}
