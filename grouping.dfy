/** Grouping by a string key, as the report code does with an insertion-ordered JavaScript
    `Map` or with `[...new Set(xs)]`: the distinct keys in first-seen order, the members of
    each group in input order, and sums over the groups. */
module Grouping {
  import opened Money

  predicate NoDuplicates<T(==)>(xs: seq<T>) {
    forall i, j :: 0 <= i < j < |xs| ==> xs[i] != xs[j]
  }

  /** `[...new Set(xs)]`: each value once, at the place it first occurs. */
  function Distinct<T(==,!new)>(xs: seq<T>): (r: seq<T>)
    ensures forall x :: x in r <==> x in xs
    ensures NoDuplicates(r)
    ensures |r| <= |xs|
  {
    if xs == [] then []
    else
      var d := Distinct(xs[..|xs| - 1]);
      var x := xs[|xs| - 1];
      assert forall y :: y in xs <==> y in xs[..|xs| - 1] || y == x;
      if x in d then d else d + [x]
  }

  /** Appending a value adds it to the distinct values exactly when it is new. */
  lemma DistinctSnoc<T(!new)>(xs: seq<T>, x: T)
    ensures Distinct(xs + [x]) == if x in xs then Distinct(xs) else Distinct(xs) + [x]
  {
    assert (xs + [x])[..|xs + [x]| - 1] == xs;
  }

  /** `xs.indexOf(x)` when `x` occurs: the first position holding it. */
  function FirstPosition<T(==)>(xs: seq<T>, x: T): (n: nat)
    requires x in xs
    ensures n < |xs| && xs[n] == x
    ensures forall m :: 0 <= m < n ==> xs[m] != x
  {
    if xs[0] == x then 0 else 1 + FirstPosition(xs[1..], x)
  }

  /** Appending keeps the first position of a value already present. */
  lemma FirstPositionSnoc<T>(xs: seq<T>, x: T, y: T)
    requires y in xs
    ensures FirstPosition(xs + [x], y) == FirstPosition(xs, y)
  {
    var n, m := FirstPosition(xs + [x], y), FirstPosition(xs, y);
    assert (xs + [x])[m] == y;
    assert xs[n] == (xs + [x])[n];
  }

  /** A new value appended is first found at the end. */
  lemma FirstPositionNew<T>(xs: seq<T>, x: T)
    requires x !in xs
    ensures FirstPosition(xs + [x], x) == |xs|
  {
    assert forall m :: 0 <= m < |xs| ==> (xs + [x])[m] == xs[m];
  }

  /** The distinct values come in the order of their first occurrences. */
  lemma {:induction false} DistinctInFirstSeenOrder<T(!new)>(xs: seq<T>)
    ensures forall i, j :: 0 <= i < j < |Distinct(xs)| ==> FirstPosition(xs, Distinct(xs)[i]) < FirstPosition(xs, Distinct(xs)[j])
  {
    if xs != [] {
      var init, x := xs[..|xs| - 1], xs[|xs| - 1];
      DistinctInFirstSeenOrder(init);
      assert init + [x] == xs;
      DistinctSnoc(init, x);
      var d0, d := Distinct(init), Distinct(xs);
      assert d == if x in init then d0 else d0 + [x];
      forall i, j | 0 <= i < j < |d| ensures FirstPosition(xs, d[i]) < FirstPosition(xs, d[j]) {
        assert d[i] == d0[i] && d0[i] in init;
        FirstPositionSnoc(init, x, d0[i]);
        if j < |d0| {
          assert d[j] == d0[j] && d0[j] in init;
          FirstPositionSnoc(init, x, d0[j]);
        } else {
          assert d[j] == x && x !in init;
          FirstPositionNew(init, x);
        }
      }
    }
  }

  /** `xs.map(f)`. */
  function Mapped<T, U>(xs: seq<T>, f: T -> U): (r: seq<U>)
    ensures |r| == |xs| && forall i :: 0 <= i < |xs| ==> r[i] == f(xs[i])
  {
    if xs == [] then [] else Mapped(xs[..|xs| - 1], f) + [f(xs[|xs| - 1])]
  }

  /** `[...new Set(xs.map(key))]`: the keys that occur, each once, in first-seen order. */
  function DistinctKeys<T(!new)>(xs: seq<T>, key: T -> string): (r: seq<string>)
    ensures NoDuplicates(r)
    ensures forall k :: k in r <==> exists x :: x in xs && key(x) == k
    ensures forall k :: k in r <==> k in Mapped(xs, key)
  {
    var ks := Mapped(xs, key);
    assert forall k :: k in ks <==> exists i :: 0 <= i < |xs| && key(xs[i]) == k;
    Distinct(ks)
  }

  /** Appending an element adds its key to the distinct keys exactly when the key is new. */
  lemma DistinctKeysSnoc<T(!new)>(xs: seq<T>, x: T, key: T -> string)
    ensures DistinctKeys(xs + [x], key) ==
            if key(x) in DistinctKeys(xs, key) then DistinctKeys(xs, key) else DistinctKeys(xs, key) + [key(x)]
  {
    assert (xs + [x])[..|xs|] == xs;
    assert Mapped(xs + [x], key) == Mapped(xs, key) + [key(x)];
    DistinctSnoc(Mapped(xs, key), key(x));
  }

  /** The distinct keys come in the order in which each key first occurs in `xs`. */
  lemma DistinctKeysInFirstSeenOrder<T(!new)>(xs: seq<T>, key: T -> string)
    ensures forall i, j :: 0 <= i < j < |DistinctKeys(xs, key)| ==>
              FirstPosition(Mapped(xs, key), DistinctKeys(xs, key)[i]) < FirstPosition(Mapped(xs, key), DistinctKeys(xs, key)[j])
  {
    DistinctInFirstSeenOrder(Mapped(xs, key));
  }

  /** `xs.filter(p)`. */
  function Filter<T(!new)>(xs: seq<T>, p: T -> bool): (r: seq<T>)
    ensures |r| <= |xs|
    ensures forall x :: x in r <==> x in xs && p(x)
  {
    if xs == [] then []
    else
      var x := xs[|xs| - 1];
      assert forall y :: y in xs <==> y in xs[..|xs| - 1] || y == x;
      Filter(xs[..|xs| - 1], p) + (if p(x) then [x] else [])
  }

  /** `xs.filter(x => key(x) === k)`. */
  function Where<T(!new)>(xs: seq<T>, key: T -> string, k: string): (r: seq<T>)
    ensures |r| <= |xs|
    ensures forall x :: x in r <==> x in xs && key(x) == k
  {
    if xs == [] then []
    else
      var x := xs[|xs| - 1];
      assert forall y :: y in xs <==> y in xs[..|xs| - 1] || y == x;
      Where(xs[..|xs| - 1], key, k) + (if key(x) == k then [x] else [])
  }

  /** No element has the key: the group is empty. */
  lemma {:induction false} WhereNone<T(!new)>(xs: seq<T>, key: T -> string, k: string)
    requires forall i :: 0 <= i < |xs| ==> key(xs[i]) != k
    ensures Where(xs, key, k) == []
  {
    if xs != [] {
      WhereNone(xs[..|xs| - 1], key, k);
    }
  }

  lemma WhereSnoc<T(!new)>(xs: seq<T>, x: T, key: T -> string, k: string)
    ensures Where(xs + [x], key, k) == Where(xs, key, k) + (if key(x) == k then [x] else [])
  {
    assert (xs + [x])[..|xs + [x]| - 1] == xs;
  }

  /** The group of a concatenation is the concatenation of the groups. */
  lemma {:induction false} WhereAppend<T(!new)>(a: seq<T>, b: seq<T>, key: T -> string, k: string)
    ensures Where(a + b, key, k) == Where(a, key, k) + Where(b, key, k)
  {
    if b == [] {
      assert a + b == a;
    } else {
      var init, x := b[..|b| - 1], b[|b| - 1];
      var t := if key(x) == k then [x] else [];
      assert init + [x] == b;
      calc {
        Where(a + b, key, k);
        { assert a + b == (a + init) + [x]; }
        Where((a + init) + [x], key, k);
        { WhereSnoc(a + init, x, key, k); }
        Where(a + init, key, k) + t;
        { WhereAppend(a, init, key, k); }
        (Where(a, key, k) + Where(init, key, k)) + t;
        Where(a, key, k) + (Where(init, key, k) + t);
        { WhereSnoc(init, x, key, k); }
        Where(a, key, k) + Where(b, key, k);
      }
    }
  }

  /** A single element forms its own group or none. */
  lemma WhereSingleton<T(!new)>(x: T, key: T -> string, k: string)
    ensures Where([x], key, k) == if key(x) == k then [x] else []
  {
    assert [] + [x] == [x];
    WhereSnoc([], x, key, k);
  }

  /** The groups' sums of `f`, added up over the keys `ks`. */
  function SumOverKeys<T(!new)>(ks: seq<string>, xs: seq<T>, key: T -> string, f: T -> real): real {
    if ks == [] then 0.0
    else SumOverKeys(ks[..|ks| - 1], xs, key, f) + Sum(Where(xs, key, ks[|ks| - 1]), f)
  }

  /** Appending one element to the grouped sequence adds its value once, to its own group. */
  lemma SumWhereSnoc<T(!new)>(xs: seq<T>, x: T, key: T -> string, k: string, f: T -> real)
    ensures Sum(Where(xs + [x], key, k), f) == Sum(Where(xs, key, k), f) + (if key(x) == k then f(x) else 0.0)
  {
    WhereSnoc(xs, x, key, k);
    if key(x) == k {
      SumAppend(Where(xs, key, k), [x], f);
      SumSingleton(x, f);
    } else {
      assert Where(xs, key, k) + [] == Where(xs, key, k);
    }
  }

  /** A value not yet present can be appended without repeating one. */
  lemma NoDuplicatesSnoc<T>(ks: seq<T>, k: T)
    requires NoDuplicates(ks) && k !in ks
    ensures NoDuplicates(ks + [k])
  {
    var r := ks + [k];
    forall i, j | 0 <= i < j < |r| ensures r[i] != r[j] {
      assert r[i] == ks[i];
      if j < |ks| {
        assert r[j] == ks[j];
      }
    }
  }

  lemma NoDuplicatesInit<T>(ks: seq<T>)
    requires NoDuplicates(ks) && ks != []
    ensures NoDuplicates(ks[..|ks| - 1])
    ensures ks[|ks| - 1] !in ks[..|ks| - 1]
    ensures forall y :: y in ks <==> y in ks[..|ks| - 1] || y == ks[|ks| - 1]
  {
    var init := ks[..|ks| - 1];
    assert forall i :: 0 <= i < |init| ==> init[i] == ks[i] && ks[i] != ks[|ks| - 1];
    assert ks == init + [ks[|ks| - 1]];
  }

  /** Appending one element to the grouped sequence adds its value once, to its own group. */
  lemma {:induction false} SumOverKeysSnoc<T(!new)>(ks: seq<string>, xs: seq<T>, x: T, key: T -> string, f: T -> real)
    requires NoDuplicates(ks)
    ensures SumOverKeys(ks, xs + [x], key, f) ==
            SumOverKeys(ks, xs, key, f) + (if key(x) in ks then f(x) else 0.0)
  {
    if ks != [] {
      var init, k := ks[..|ks| - 1], ks[|ks| - 1];
      NoDuplicatesInit(ks);
      SumOverKeysSnoc(init, xs, x, key, f);
      SumWhereSnoc(xs, x, key, k, f);
    }
  }

  /** When every element's key is one of the distinct keys `ks`, the groups partition the
      sequence: their sums add up to the sum over the whole sequence. */
  lemma {:induction false} GroupsPartitionSum<T(!new)>(ks: seq<string>, xs: seq<T>, key: T -> string, f: T -> real)
    requires NoDuplicates(ks)
    requires forall i :: 0 <= i < |xs| ==> key(xs[i]) in ks
    ensures SumOverKeys(ks, xs, key, f) == Sum(xs, f)
    decreases |xs|
  {
    if xs == [] {
      SumOverKeysEmpty(ks, key, f);
    } else {
      var init, x := xs[..|xs| - 1], xs[|xs| - 1];
      GroupsPartitionSum(ks, init, key, f);
      assert init + [x] == xs;
      SumOverKeysSnoc(ks, init, x, key, f);
    }
  }

  lemma {:induction false} SumOverKeysEmpty<T(!new)>(ks: seq<string>, key: T -> string, f: T -> real)
    ensures SumOverKeys(ks, [], key, f) == 0.0
  {
    if ks != [] {
      SumOverKeysEmpty(ks[..|ks| - 1], key, f);
    }
  }

  /** The group sizes add up to the length of the sequence, under the same condition. */
  function CountOverKeys<T(!new)>(ks: seq<string>, xs: seq<T>, key: T -> string): nat {
    if ks == [] then 0 else CountOverKeys(ks[..|ks| - 1], xs, key) + |Where(xs, key, ks[|ks| - 1])|
  }

  lemma {:induction false} GroupsPartitionCount<T(!new)>(ks: seq<string>, xs: seq<T>, key: T -> string)
    requires NoDuplicates(ks)
    requires forall i :: 0 <= i < |xs| ==> key(xs[i]) in ks
    ensures CountOverKeys(ks, xs, key) == |xs|
    decreases |xs|
  {
    if xs == [] {
      CountOverKeysEmpty(ks, key);
    } else {
      var init, x := xs[..|xs| - 1], xs[|xs| - 1];
      GroupsPartitionCount(ks, init, key);
      assert init + [x] == xs;
      CountOverKeysSnoc(ks, init, x, key);
    }
  }

  lemma {:induction false} CountOverKeysEmpty<T(!new)>(ks: seq<string>, key: T -> string)
    ensures CountOverKeys(ks, [], key) == 0
  {
    if ks != [] {
      CountOverKeysEmpty(ks[..|ks| - 1], key);
    }
  }

  lemma {:induction false} CountOverKeysSnoc<T(!new)>(ks: seq<string>, xs: seq<T>, x: T, key: T -> string)
    requires NoDuplicates(ks)
    ensures CountOverKeys(ks, xs + [x], key) ==
            CountOverKeys(ks, xs, key) + (if key(x) in ks then 1 else 0)
  {
    if ks != [] {
      var init, k := ks[..|ks| - 1], ks[|ks| - 1];
      NoDuplicatesInit(ks);
      CountOverKeysSnoc(init, xs, x, key);
      WhereSnoc(xs, x, key, k);
    }
  }
}
