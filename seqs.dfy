/**
 * A list comprehension `[f(x) for x in xs]`, as a function and as the loop that builds it,
 * and the list built by extending it with `f(x)` for each `x` in turn.
 */
module Seqs {

  function Map<A, B>(xs: seq<A>, f: A -> B): (ys: seq<B>)
    ensures |ys| == |xs|
    ensures forall k :: 0 <= k < |xs| ==> ys[k] == f(xs[k])
  {
    seq(|xs|, k requires 0 <= k < |xs| => f(xs[k]))
  }

  /** Applies `f` to each element in turn, appending the results. */
  method MapEach<A, B>(xs: seq<A>, f: A -> B) returns (ys: seq<B>)
    ensures ys == Map(xs, f)
  {
    ys := [];
    var i := 0;
    while i < |xs|
      invariant 0 <= i <= |xs|
      invariant ys == Map(xs[..i], f)
    {
      ys := ys + [f(xs[i])];
      i := i + 1;
    }
    assert xs[..|xs|] == xs;
  }

  /** The prefix one longer is the prefix and the next element. */
  lemma PrefixNext<T>(s: seq<T>, i: nat)
    requires i < |s|
    ensures s[..i + 1] == s[..i] + [s[i]]
  {
  }

  /** A sequence is what comes before position `i`, the element there, and what comes after. */
  lemma SplitAround<T>(s: seq<T>, i: nat)
    requires i < |s|
    ensures s == s[..i] + [s[i]] + s[i + 1..]
  {
    assert s == s[..i + 1] + s[i + 1..];
  }

  /** The concatenation of `f(x)` for each `x`, in order: `out.extend(f(x))` in a loop. */
  function FlatMap<A(!new), B>(xs: seq<A>, f: A --> seq<B>): seq<B>
    requires forall x :: f.requires(x)
  {
    if xs == [] then [] else FlatMap(xs[..|xs| - 1], f) + f(xs[|xs| - 1])
  }

  /** One more pass of the loop extends the list by `f` of the next element. */
  lemma FlatMapPrefix<A(!new), B>(xs: seq<A>, f: A --> seq<B>, i: nat)
    requires forall x :: f.requires(x)
    requires i < |xs|
    ensures FlatMap(xs[..i + 1], f) == FlatMap(xs[..i], f) + f(xs[i])
  {
    assert xs[..i + 1][..i] == xs[..i];
  }

  /** Extending over two lists in turn is extending over their concatenation. */
  lemma {:induction false} FlatMapAppend<A(!new), B>(a: seq<A>, b: seq<A>, f: A --> seq<B>)
    requires forall x :: f.requires(x)
    ensures FlatMap(a + b, f) == FlatMap(a, f) + FlatMap(b, f)
    decreases |b|
  {
    if b == [] {
      assert a + b == a;
    } else {
      var b', x := b[..|b| - 1], b[|b| - 1];
      var ab := a + b;
      assert ab[..|ab| - 1] == a + b' && ab[|ab| - 1] == x;
      FlatMapAppend(a, b', f);
      var fa, fb' := FlatMap(a, f), FlatMap(b', f);
      assert FlatMap(ab, f) == (fa + fb') + f(x);
      assert (fa + fb') + f(x) == fa + (fb' + f(x));
    }
  }

  lemma FlatMapOne<A(!new), B>(x: A, f: A --> seq<B>)
    requires forall x :: f.requires(x)
    ensures FlatMap([x], f) == f(x)
  {
    assert [x][..0] == [];
  }
}
