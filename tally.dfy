/** The accumulation idiom of the analytics queries: a JavaScript `Map` from a key to a running
    total, read with a default (`map.get(k) || zero`) and overwritten with `map.set(k, add(…))`
    for each element in turn, its keys kept in first-insertion order. */
module Tally {
  import opened Grouping

  /** `xs.reduce(add, zero)`. */
  function Fold<T, V>(xs: seq<T>, zero: V, add: (V, T) -> V): V {
    if xs == [] then zero else add(Fold(xs[..|xs| - 1], zero, add), xs[|xs| - 1])
  }

  /** The fold of the elements of `xs` whose key is `k`, in order. */
  function GroupFold<T, V>(xs: seq<T>, key: T -> string, k: string, zero: V, add: (V, T) -> V): V {
    if xs == [] then zero
    else
      var g := GroupFold(xs[..|xs| - 1], key, k, zero, add);
      if key(xs[|xs| - 1]) == k then add(g, xs[|xs| - 1]) else g
  }

  /** It is the fold of the group `Where(xs, key, k)`. */
  lemma {:induction false} GroupFoldIsFoldOfGroup<T(!new), V>(xs: seq<T>, key: T -> string, k: string, zero: V, add: (V, T) -> V)
    ensures GroupFold(xs, key, k, zero, add) == Fold(Where(xs, key, k), zero, add)
  {
    if xs != [] {
      var init, x := xs[..|xs| - 1], xs[|xs| - 1];
      GroupFoldIsFoldOfGroup(init, key, k, zero, add);
      assert init + [x] == xs;
      WhereSnoc(init, x, key, k);
      var w := Where(init, key, k);
      if key(x) == k {
        assert (w + [x])[..|w|] == w;
      } else {
        assert w + [] == w;
      }
    }
  }

  /** The map and its insertion order. */
  datatype Table<V> = Table(keys: seq<string>, totals: map<string, V>)

  /** One `map.set(k, add(map.get(k) || zero, x))`: the key's total (`zero` when the key is
      new) is combined with `x`, and a new key goes last. */
  function Count<T, V>(t: Table<V>, x: T, key: T -> string, zero: V, add: (V, T) -> V): (r: Table<V>)
    ensures r.keys == if key(x) in t.totals then t.keys else t.keys + [key(x)]
    ensures r.totals == t.totals[key(x) := add(if key(x) in t.totals then t.totals[key(x)] else zero, x)]
  {
    var k := key(x);
    var current := if k in t.totals then t.totals[k] else zero;
    Table(if k in t.totals then t.keys else t.keys + [k], t.totals[k := add(current, x)])
  }

  /** The table after counting the elements `xs` in order, starting from an empty map. */
  function TallyOf<T, V>(xs: seq<T>, key: T -> string, zero: V, add: (V, T) -> V): Table<V> {
    if xs == [] then Table([], map[])
    else Count(TallyOf(xs[..|xs| - 1], key, zero, add), xs[|xs| - 1], key, zero, add)
  }

  lemma TallyOfSnoc<T, V>(xs: seq<T>, x: T, key: T -> string, zero: V, add: (V, T) -> V)
    ensures TallyOf(xs + [x], key, zero, add) == Count(TallyOf(xs, key, zero, add), x, key, zero, add)
  {
    assert (xs + [x])[..|xs|] == xs;
  }

  /** The map holds exactly the keys of the insertion order. */
  lemma {:induction false} TallyDomain<T, V>(xs: seq<T>, key: T -> string, zero: V, add: (V, T) -> V)
    ensures forall k :: k in TallyOf(xs, key, zero, add).totals <==> k in TallyOf(xs, key, zero, add).keys
  {
    if xs != [] {
      var init := xs[..|xs| - 1];
      TallyDomain(init, key, zero, add);
      var t0, t := TallyOf(init, key, zero, add), TallyOf(xs, key, zero, add);
      assert t == Count(t0, xs[|xs| - 1], key, zero, add);
      forall k ensures k in t.totals <==> k in t.keys {
        assert k in t0.totals <==> k in t0.keys;
      }
    }
  }

  /** The keys of the table are the distinct keys of `xs` in first-seen order, and they are
      exactly the keys the map holds. */
  lemma {:induction false} TallyKeys<T(!new), V>(xs: seq<T>, key: T -> string, zero: V, add: (V, T) -> V)
    ensures TallyOf(xs, key, zero, add).keys == DistinctKeys(xs, key)
    ensures forall k :: k in TallyOf(xs, key, zero, add).totals <==> k in DistinctKeys(xs, key)
  {
    if xs == [] {
      assert Mapped(xs, key) == [];
    } else {
      var init, x := xs[..|xs| - 1], xs[|xs| - 1];
      TallyKeys(init, key, zero, add);
      TallyDomain(init, key, zero, add);
      assert init + [x] == xs;
      DistinctKeysSnoc(init, x, key);
    }
    TallyDomain(xs, key, zero, add);
  }

  /** Each key's total is the fold of its group. */
  lemma {:induction false} TallyTotals<T(!new), V>(xs: seq<T>, key: T -> string, k: string, zero: V, add: (V, T) -> V)
    requires k in TallyOf(xs, key, zero, add).totals
    ensures TallyOf(xs, key, zero, add).totals[k] == GroupFold(xs, key, k, zero, add)
  {
    var init, x := xs[..|xs| - 1], xs[|xs| - 1];
    var t := TallyOf(init, key, zero, add);
    if k in t.totals {
      TallyTotals(init, key, k, zero, add);
    } else {
      TallyKeys(init, key, zero, add);
      NewKeyZero(init, key, k, zero, add);
    }
  }

  /** A key that does not occur has the fold of nothing. */
  lemma {:induction false} NewKeyZero<T(!new), V>(done: seq<T>, key: T -> string, k: string, zero: V, add: (V, T) -> V)
    requires k !in DistinctKeys(done, key)
    ensures GroupFold(done, key, k, zero, add) == zero
  {
    forall i | 0 <= i < |done| ensures key(done[i]) != k {
      assert done[i] in done;
    }
    NoKeyZero(done, key, k, zero, add);
  }

  lemma {:induction false} NoKeyZero<T, V>(xs: seq<T>, key: T -> string, k: string, zero: V, add: (V, T) -> V)
    requires forall i :: 0 <= i < |xs| ==> key(xs[i]) != k
    ensures GroupFold(xs, key, k, zero, add) == zero
  {
    if xs != [] {
      NoKeyZero(xs[..|xs| - 1], key, k, zero, add);
    }
  }

  /** The `forEach` that counts the elements `xs` into a table already holding those of
      `done`. */
  method TallyInto<T, V>(ghost done: seq<T>, t0: Table<V>, xs: seq<T>, key: T -> string, zero: V, add: (V, T) -> V)
    returns (t: Table<V>)
    requires t0 == TallyOf(done, key, zero, add)
    ensures t == TallyOf(done + xs, key, zero, add)
  {
    var keys, totals := t0.keys, t0.totals;
    var j := 0;
    assert done + xs[..0] == done;
    while j < |xs|
      invariant 0 <= j <= |xs|
      invariant Table(keys, totals) == TallyOf(done + xs[..j], key, zero, add)
    {
      var x := xs[j];
      var k := key(x);
      var current := if k in totals then totals[k] else zero;
      if k !in totals {
        keys := keys + [k];
      }
      totals := totals[k := add(current, x)];
      PrefixSnoc(done, xs, j);
      TallyOfSnoc(done + xs[..j], x, key, zero, add);
      j := j + 1;
    }
    assert xs[..j] == xs;
    t := Table(keys, totals);
  }

  lemma PrefixSnoc<T>(done: seq<T>, xs: seq<T>, j: nat)
    requires j < |xs|
    ensures done + xs[..j + 1] == (done + xs[..j]) + [xs[j]]
  {
    assert xs[..j + 1] == xs[..j] + [xs[j]];
  }
}
