/** Money arithmetic shared by every part of the report: JavaScript's `Math.round`, the
    one-decimal margin formula and sums over sequences (`reduce((s, i) => s + f(i), 0)`). */
module Money {

  /** `Math.round(x)`: the nearest integer, halves rounded up. */
  function Round(x: real): (r: int)
    ensures x - 0.5 < r as real <= x + 0.5
  {
    (x + 0.5).Floor
  }

  /** The contract of `Round` pins down one integer. */
  lemma RoundUnique(x: real, k: int)
    requires x - 0.5 < k as real <= x + 0.5
    ensures Round(x) == k
  {
  }

  /** A number with at most one decimal place. */
  predicate IsTenths(x: real) {
    (x * 10.0).Floor as real == x * 10.0
  }

  /** `net > 0 ? Math.round((profit / net) * 100 * 10) / 10 : 0`: profit as a percentage of
      net amount, rounded half up to one decimal. */
  function OneDecimalMargin(profit: real, net: real): (r: real)
    ensures net <= 0.0 ==> r == 0.0
    ensures net > 0.0 ==> profit / net * 100.0 - 0.05 < r <= profit / net * 100.0 + 0.05
    ensures IsTenths(r)
  {
    if net > 0.0 then Round(profit / net * 1000.0) as real / 10.0 else 0.0
  }

  /** `net > 0 ? (profit / net) * 100 : 0`: the same percentage, unrounded. */
  function Percent(profit: real, net: real): (r: real)
    ensures net > 0.0 && 0.0 <= profit <= net ==> 0.0 <= r <= 100.0
  {
    if net > 0.0 then profit / net * 100.0 else 0.0
  }

  /** A margin is at most 100 when no cost is negative, and exactly 100 when there is no cost. */
  lemma {:induction false} MarginAtMost100(net: real, cost: real)
    requires net > 0.0 && cost >= 0.0
    ensures OneDecimalMargin(net - cost, net) <= 100.0
    ensures cost == 0.0 ==> OneDecimalMargin(net - cost, net) == 100.0
  {
    var y := (net - cost) / net * 1000.0;
    assert (net - cost) / net <= 1.0;
    assert y <= 1000.0;
    assert Round(y) <= 1000;
    if cost == 0.0 {
      assert (net - cost) / net == 1.0;
      RoundUnique(y, 1000);
    }
  }

  /** `xs.reduce((s, x) => s + f(x), 0)`. */
  function Sum<T>(xs: seq<T>, f: T -> real): real {
    if xs == [] then 0.0 else Sum(xs[..|xs| - 1], f) + f(xs[|xs| - 1])
  }

  lemma {:induction false} SumAppend<T>(xs: seq<T>, ys: seq<T>, f: T -> real)
    ensures Sum(xs + ys, f) == Sum(xs, f) + Sum(ys, f)
    decreases |ys|
  {
    if ys != [] {
      var zs := ys[..|ys| - 1];
      assert (xs + ys)[..|xs + ys| - 1] == xs + zs;
      SumAppend(xs, zs, f);
    } else {
      assert xs + ys == xs;
    }
  }

  /** A sum of differences is the difference of the sums. */
  lemma {:induction false} SumDifference<T>(xs: seq<T>, f: T -> real, g: T -> real, h: T -> real)
    requires forall i :: 0 <= i < |xs| ==> f(xs[i]) == g(xs[i]) - h(xs[i])
    ensures Sum(xs, f) == Sum(xs, g) - Sum(xs, h)
  {
    if xs != [] {
      SumDifference(xs[..|xs| - 1], f, g, h);
    }
  }

  /** Sums of two sequences agree when the sequences agree element by element. */
  lemma {:induction false} SumPointwise<T, U>(xs: seq<T>, f: T -> real, ys: seq<U>, g: U -> real)
    requires |xs| == |ys| && forall i :: 0 <= i < |xs| ==> f(xs[i]) == g(ys[i])
    ensures Sum(xs, f) == Sum(ys, g)
    decreases |xs|
  {
    if xs != [] {
      SumPointwise(xs[..|xs| - 1], f, ys[..|ys| - 1], g);
    }
  }

  lemma SumSingleton<T>(x: T, f: T -> real)
    ensures Sum([x], f) == f(x)
  {
    assert [x][..0] == [];
  }

  /** A sum does not depend on the order of the elements. */
  lemma {:induction false} SumPermutation<T>(xs: seq<T>, ys: seq<T>, f: T -> real)
    requires multiset(xs) == multiset(ys)
    ensures Sum(xs, f) == Sum(ys, f)
    decreases |xs|
  {
    if xs == [] {
      assert |ys| == |multiset(ys)| == 0;
    } else {
      var init, x := xs[..|xs| - 1], xs[|xs| - 1];
      assert xs == init + [x];
      assert x in multiset(ys);
      var k :| 0 <= k < |ys| && ys[k] == x;
      var rest := ys[..k] + ys[k + 1..];
      assert ys == ys[..k] + [x] + ys[k + 1..];
      assert multiset(rest) == multiset(ys) - multiset{x};
      assert multiset(init) == multiset(xs) - multiset{x};
      SumPermutation(init, rest, f);
      SumAppend(ys[..k] + [x], ys[k + 1..], f);
      SumAppend(ys[..k], [x], f);
      SumSingleton(x, f);
      SumAppend(ys[..k], ys[k + 1..], f);
    }
  }
}
