/**
 * The three array combinators the cart code is written with: `map`,
 * `filter` and `reduce` with `+` over a start value of 0. `Map` is stated
 * element by element; `Filter` and `Sum` come with lemmas for concatenation,
 * removal and update, so the cart modules can reason about them without
 * unfolding the recursion.
 */
module Sequences {

  /** `s.map(f)`: same length, element `i` is `f(s[i])`. */
  function Map<A, B>(s: seq<A>, f: A -> B): (r: seq<B>)
    ensures |r| == |s|
    ensures forall i :: 0 <= i < |s| ==> r[i] == f(s[i])
  {
    if s == [] then [] else [f(s[0])] + Map(s[1..], f)
  }

  /** `s.filter(p)`: a list no longer than `s` whose every element passes and comes from `s`. */
  function Filter<A(==,!new)>(s: seq<A>, p: A -> bool): (r: seq<A>)
    ensures |r| <= |s|
    ensures forall k :: 0 <= k < |r| ==> p(r[k]) && r[k] in s
  {
    if s == [] then [] else (if p(s[0]) then [s[0]] else []) + Filter(s[1..], p)
  }

  /** Every element of `s` that passes survives the filter. */
  lemma {:induction false} FilterKeeps<A(!new)>(s: seq<A>, p: A -> bool, x: A)
    requires x in s && p(x)
    ensures x in Filter(s, p)
  {
    if s[0] != x {
      FilterKeeps(s[1..], p, x);
    }
  }

  /** When every element passes, the filter changes nothing. */
  lemma {:induction false} FilterAllPass<A(!new)>(s: seq<A>, p: A -> bool)
    requires forall j :: 0 <= j < |s| ==> p(s[j])
    ensures Filter(s, p) == s
  {
    if s != [] {
      FilterAllPass(s[1..], p);
    }
  }

  /** Filtering a concatenation filters each part, so the relative order is kept. */
  lemma {:induction false} FilterConcat<A(!new)>(a: seq<A>, b: seq<A>, p: A -> bool)
    ensures Filter(a + b, p) == Filter(a, p) + Filter(b, p)
  {
    if a == [] {
      assert a + b == b;
    } else {
      assert (a + b)[0] == a[0];
      assert (a + b)[1..] == a[1..] + b;
      FilterConcat(a[1..], b, p);
    }
  }

  /** Filtering out a single element, when every other one passes, just cuts it out. */
  lemma {:induction false} FilterDropsOne<A(!new)>(s: seq<A>, p: A -> bool, i: nat)
    requires i < |s| && !p(s[i])
    requires forall j :: 0 <= j < |s| && j != i ==> p(s[j])
    ensures Filter(s, p) == s[..i] + s[i + 1..]
  {
    var tail := s[1..];
    if i == 0 {
      assert forall j :: 0 <= j < |tail| ==> tail[j] == s[j + 1];
      FilterAllPass(tail, p);
    } else {
      assert forall j :: 0 <= j < |tail| && j != i - 1 ==> tail[j] == s[j + 1];
      FilterDropsOne(tail, p, i - 1);
      assert s[..i] + s[i + 1..] == [s[0]] + (tail[..i - 1] + tail[i..]);
    }
  }

  /**
   * `s.reduce((acc, x) => acc + f(x), 0)`: a left fold, adding the elements'
   * contributions from the first to the last.
   */
  function Sum<A>(s: seq<A>, f: A -> int): int {
    if s == [] then 0 else Sum(s[..|s| - 1], f) + f(s[|s| - 1])
  }

  /** No element contributes a negative amount, so neither does the fold. */
  lemma {:induction false} SumNonNegative<A>(s: seq<A>, f: A -> int)
    ensures (forall i :: 0 <= i < |s| ==> f(s[i]) >= 0) ==> Sum(s, f) >= 0
  {
    if s != [] {
      var init := s[..|s| - 1];
      assert forall i :: 0 <= i < |init| ==> init[i] == s[i];
      SumNonNegative(init, f);
    }
  }

  /** The fold is additive over concatenation. */
  lemma {:induction false} SumConcat<A>(a: seq<A>, b: seq<A>, f: A -> int)
    ensures Sum(a + b, f) == Sum(a, f) + Sum(b, f)
  {
    if b == [] {
      assert a + b == a;
    } else {
      var b' := b[..|b| - 1];
      assert (a + b)[..|a + b| - 1] == a + b';
      assert (a + b)[|a + b| - 1] == b[|b| - 1];
      SumConcat(a, b', f);
    }
  }

  function Identity(x: int): int { x }

  /** `s.reduce((acc, x) => acc + x, 0)` over plain numbers. */
  function SumInts(s: seq<int>): int {
    Sum(s, Identity)
  }

  /** The same sum taken from the front. */
  lemma SumFirst(s: seq<int>)
    requires s != []
    ensures SumInts(s) == s[0] + SumInts(s[1..])
  {
    assert s == [s[0]] + s[1..];
    SumConcat([s[0]], s[1..], Identity);
    SumSingleton(s[0], Identity);
  }

  lemma SumSingleton<A>(x: A, f: A -> int)
    ensures Sum([x], f) == f(x)
  {
    assert [x][..0] == [];
  }

  /** Dropping one element removes exactly that element's contribution. */
  lemma SumRemove<A>(s: seq<A>, f: A -> int, i: nat)
    requires i < |s|
    ensures Sum(s[..i] + s[i + 1..], f) == Sum(s, f) - f(s[i])
  {
    var pre, upto, post := s[..i], s[..i + 1], s[i + 1..];
    assert s == upto + post;
    SumConcat(upto, post, f);
    assert upto[..i] == pre;
    SumConcat(pre, post, f);
  }

  /** Replacing one element changes the fold by exactly that element's difference. */
  lemma SumUpdate<A>(s: seq<A>, f: A -> int, i: nat, x: A)
    requires i < |s|
    ensures Sum(s[i := x], f) == Sum(s, f) - f(s[i]) + f(x)
  {
    var t := s[i := x];
    assert t[..i] == s[..i] && t[i + 1..] == s[i + 1..];
    SumRemove(s, f, i);
    SumRemove(t, f, i);
  }
}
