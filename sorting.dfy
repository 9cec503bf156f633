/**
 * Python's `sorted(xs, key=..., reverse=...)` and `list.sort`, which are stable: the
 * order is given as a total preorder `le` ("a may come before b"), and elements that
 * `le` cannot tell apart keep their input order.
 */
module Sorting {

  /** `le` is total and transitive, so it ranks every pair of elements. */
  ghost predicate TotalPreorder<T(!new)>(le: (T, T) -> bool) {
    && (forall a, b :: le(a, b) || le(b, a))
    && (forall a, b, c :: le(a, b) && le(b, c) ==> le(a, c))
  }

  predicate SortedBy<T>(s: seq<T>, le: (T, T) -> bool) {
    forall i, j :: 0 <= i < j < |s| ==> le(s[i], s[j])
  }

  /** `a` and `b` tie under `le`. */
  predicate Equivalent<T>(le: (T, T) -> bool, a: T, b: T) {
    le(a, b) && le(b, a)
  }

  /** Inserts `x` before the first element it may precede. */
  function Insert<T>(x: T, s: seq<T>, le: (T, T) -> bool): (r: seq<T>)
    ensures |r| == |s| + 1
    ensures multiset(r) == multiset(s) + multiset{x}
  {
    if s == [] || le(x, s[0]) then [x] + s
    else
      assert s == [s[0]] + s[1..];
      [s[0]] + Insert(x, s[1..], le)
  }

  /** Stable insertion sort: the first element goes before everything it ties with. */
  function SortBy<T>(s: seq<T>, le: (T, T) -> bool): (r: seq<T>)
    ensures |r| == |s|
    ensures multiset(r) == multiset(s)
  {
    if s == [] then []
    else
      assert s == [s[0]] + s[1..];
      Insert(s[0], SortBy(s[1..], le), le)
  }

  lemma {:induction false} InsertSorted<T(!new)>(x: T, s: seq<T>, le: (T, T) -> bool)
    requires TotalPreorder(le)
    requires SortedBy(s, le)
    ensures SortedBy(Insert(x, s, le), le)
    decreases |s|
  {
    if s == [] || le(x, s[0]) {
    } else {
      InsertSorted(x, s[1..], le);
      var t := Insert(x, s[1..], le);
      assert le(s[0], x);
      forall e | e in multiset(t) ensures le(s[0], e) {
        assert e in multiset(s[1..]) + multiset{x};
        if e in multiset(s[1..]) {
          var k :| 0 <= k < |s[1..]| && s[1..][k] == e;
          assert s[1 + k] == e;
        }
      }
      forall j | 0 <= j < |t| ensures le(s[0], t[j]) {
        assert t[j] in multiset(t);
      }
    }
  }

  /** SortBy orders its input. */
  lemma {:induction false} SortBySorted<T(!new)>(s: seq<T>, le: (T, T) -> bool)
    requires TotalPreorder(le)
    ensures SortedBy(SortBy(s, le), le)
    decreases |s|
  {
    if s != [] {
      SortBySorted(s[1..], le);
      InsertSorted(s[0], SortBy(s[1..], le), le);
    }
  }

  /** The elements of `s` that tie with `k`, in order. */
  function TieClass<T>(s: seq<T>, le: (T, T) -> bool, k: T): seq<T> {
    if s == [] then []
    else if Equivalent(le, s[0], k) then [s[0]] + TieClass(s[1..], le, k)
    else TieClass(s[1..], le, k)
  }

  lemma TieClassCons<T>(x: T, s: seq<T>, le: (T, T) -> bool, k: T)
    ensures TieClass([x] + s, le, k)
         == (if Equivalent(le, x, k) then [x] else []) + TieClass(s, le, k)
  {
    assert ([x] + s)[1..] == s;
  }

  /** Inserting into a sorted list: the tie class of `k` gains `x` in front when `x` ties with `k`. */
  lemma {:induction false} InsertStable<T(!new)>(x: T, s: seq<T>, le: (T, T) -> bool, k: T)
    requires TotalPreorder(le)
    requires SortedBy(s, le)
    ensures TieClass(Insert(x, s, le), le, k) == TieClass([x] + s, le, k)
    decreases |s|
  {
    if s == [] || le(x, s[0]) {
    } else {
      InsertStable(x, s[1..], le, k);
      assert [s[0]] + s[1..] == s;
      TieClassCons(x, s, le, k);
      TieClassCons(x, s[1..], le, k);
      TieClassCons(s[0], s[1..], le, k);
      TieClassCons(s[0], Insert(x, s[1..], le), le, k);
      if Equivalent(le, s[0], k) && Equivalent(le, x, k) {
        // x would tie with s[0], but x ranks strictly after s[0]
        assert false;
      }
    }
  }

  /**
   * Stability: the elements that tie with any `k` appear in the output in the same
   * order as in the input.
   */
  lemma {:induction false} SortByStable<T(!new)>(s: seq<T>, le: (T, T) -> bool, k: T)
    requires TotalPreorder(le)
    ensures TieClass(SortBy(s, le), le, k) == TieClass(s, le, k)
    decreases |s|
  {
    if s != [] {
      SortByStable(s[1..], le, k);
      SortBySorted(s[1..], le);
      InsertStable(s[0], SortBy(s[1..], le), le, k);
      TieClassCons(s[0], SortBy(s[1..], le), le, k);
      TieClassCons(s[0], s[1..], le, k);
      assert [s[0]] + s[1..] == s;
    }
  }

  /** An element of `s` sits at some index of `s`. */
  lemma InMultisetIndex<T>(s: seq<T>, x: T) returns (i: nat)
    requires x in multiset(s)
    ensures i < |s| && s[i] == x
  {
    assert x in s;
    i :| 0 <= i < |s| && s[i] == x;
  }

  /** Two different positions holding the same element count twice. */
  lemma CountsTwice<T>(s: seq<T>, i: nat, j: nat)
    requires i < j < |s| && s[i] == s[j]
    ensures multiset(s)[s[i]] >= 2
  {
    assert s == s[..i] + [s[i]] + s[i + 1..j] + [s[j]] + s[j + 1..];
  }

  /** The length of `xs[:k]` for a list of length `n`: a negative `k` counts from the end. */
  function SliceLen(n: nat, k: int): (r: nat)
    ensures r <= n
  {
    if k >= 0 then (if k <= n then k else n)
    else if n + k >= 0 then n + k else 0
  }

  /** `sorted(s, ...)[:k]`: the first `k` elements of the stable sort. */
  function TopBy<T>(s: seq<T>, le: (T, T) -> bool, k: int): (r: seq<T>)
    ensures |r| == SliceLen(|s|, k)
  {
    SortBy(s, le)[..SliceLen(|s|, k)]
  }

  /** The prefix of a list keeps a prefix of each tie class. */
  lemma {:induction false} TieClassPrefix<T>(s: seq<T>, n: nat, le: (T, T) -> bool, k: T)
    requires n <= |s|
    ensures TieClass(s[..n], le, k) <= TieClass(s, le, k)
    decreases |s|
  {
    if n > 0 {
      TieClassPrefix(s[1..], n - 1, le, k);
      assert s[..n][1..] == s[1..][..n - 1];
    }
  }

  /** The top `k` rank no lower than anything they leave out. */
  lemma TopByRanks<T(!new)>(s: seq<T>, le: (T, T) -> bool, k: int)
    requires TotalPreorder(le)
    ensures forall x, y :: x in multiset(TopBy(s, le, k)) && y in multiset(s) - multiset(TopBy(s, le, k)) ==> le(x, y)
  {
    var t := SortBy(s, le);
    var n := SliceLen(|s|, k);
    SortBySorted(s, le);
    SortedSplitRanks(t, n, le);
    assert t == t[..n] + t[n..];
    assert multiset(s) - multiset(t[..n]) == multiset(t[n..]);
  }

  /** In a sorted list, everything before a cut ranks no lower than everything after it. */
  lemma SortedSplitRanks<T>(t: seq<T>, n: nat, le: (T, T) -> bool)
    requires SortedBy(t, le) && n <= |t|
    ensures forall x, y :: x in multiset(t[..n]) && y in multiset(t[n..]) ==> le(x, y)
  {
    forall x, y | x in multiset(t[..n]) && y in multiset(t[n..]) ensures le(x, y) {
      var i := InMultisetIndex(t[..n], x);
      var j := InMultisetIndex(t[n..], y);
      assert t[..n][i] == t[i] && t[n..][j] == t[n + j];
    }
  }

  /**
   * The top `k` are ordered, come from the input, rank no lower than anything they leave
   * out, and keep the input order among elements that tie.
   */
  lemma TopByProperties<T(!new)>(s: seq<T>, le: (T, T) -> bool, k: int)
    requires TotalPreorder(le)
    ensures SortedBy(TopBy(s, le, k), le)
    ensures multiset(TopBy(s, le, k)) <= multiset(s)
    ensures forall x, y :: x in multiset(TopBy(s, le, k)) && y in multiset(s) - multiset(TopBy(s, le, k)) ==> le(x, y)
    ensures forall key :: TieClass(TopBy(s, le, k), le, key) <= TieClass(s, le, key)
  {
    var t := SortBy(s, le);
    var n := SliceLen(|s|, k);
    var r := t[..n];
    SortBySorted(s, le);
    assert t == r + t[n..];
    assert multiset(t) == multiset(r) + multiset(t[n..]);
    TopByRanks(s, le, k);
    forall key ensures TieClass(r, le, key) <= TieClass(s, le, key) {
      TieClassPrefix(t, n, le, key);
      SortByStable(s, le, key);
    }
  }
}
