/** `Array.prototype.sort` with a comparator, as the report code uses it: stable (the
    ECMAScript specification requires it), descending by a number or ascending by a string.
    Modelled as insertion sort on sequences. */
module Sorting {
  import opened Strings
  import opened Grouping

  predicate SortedDesc<T>(xs: seq<T>, key: T -> real) {
    forall i, j :: 0 <= i < j < |xs| ==> key(xs[i]) >= key(xs[j])
  }

  predicate SortedAsc<T>(xs: seq<T>, key: T -> string) {
    forall i, j :: 0 <= i < j < |xs| ==> LexLe(key(xs[i]), key(xs[j]))
  }

  /** Insert `x` after every element with a strictly larger key: ties keep `x` first, which is
      what makes the sort stable when `x` came first in the input. */
  function InsertDesc<T>(x: T, s: seq<T>, key: T -> real): (r: seq<T>)
    requires SortedDesc(s, key)
    ensures multiset(r) == multiset(s) + multiset{x}
    ensures SortedDesc(r, key)
  {
    if s == [] || key(s[0]) <= key(x) then
      ConsDesc(x, s, key);
      [x] + s
    else
      var rest := InsertDesc(x, s[1..], key);
      assert s == [s[0]] + s[1..];
      AllBelow(rest, s[1..], x, key, key(s[0]));
      ConsDesc(s[0], rest, key);
      [s[0]] + rest
  }

  /** A head with a key at least that of every element keeps a descending sequence sorted. */
  lemma ConsDesc<T>(h: T, s: seq<T>, key: T -> real)
    requires SortedDesc(s, key) && (s != [] ==> key(s[0]) <= key(h))
    ensures SortedDesc([h] + s, key)
  {
    var r := [h] + s;
    forall i, j | 0 <= i < j < |r| ensures key(r[i]) >= key(r[j]) {
      assert r[j] == s[j - 1];
      if i > 0 {
        assert r[i] == s[i - 1];
      } else if j > 1 {
        assert key(s[0]) >= key(s[j - 1]);
      }
    }
  }

  /** Inserting `x` into `s` brings no key above a bound that `x` and `s` keep. */
  lemma AllBelow<T>(r: seq<T>, s: seq<T>, x: T, key: T -> real, b: real)
    requires multiset(r) == multiset(s) + multiset{x}
    requires key(x) <= b && forall j :: 0 <= j < |s| ==> key(s[j]) <= b
    ensures forall j :: 0 <= j < |r| ==> key(r[j]) <= b
  {
    forall j | 0 <= j < |r| ensures key(r[j]) <= b {
      assert r[j] in multiset(r);
      if r[j] != x {
        assert r[j] in multiset(s);
      }
    }
  }

  /** `xs.sort((a, b) => key(b) - key(a))`. */
  function SortDesc<T>(xs: seq<T>, key: T -> real): (r: seq<T>)
    ensures multiset(r) == multiset(xs) && |r| == |xs|
    ensures SortedDesc(r, key)
  {
    if xs == [] then []
    else
      assert xs == [xs[0]] + xs[1..];
      InsertDesc(xs[0], SortDesc(xs[1..], key), key)
  }

  /** `InsertDesc` puts `x` right after the elements with a strictly larger key. */
  lemma InsertDescSplit<T>(x: T, s: seq<T>, key: T -> real) returns (p: nat)
    requires SortedDesc(s, key)
    ensures p <= |s| && InsertDesc(x, s, key) == s[..p] + [x] + s[p..]
    ensures forall i :: 0 <= i < p ==> key(s[i]) > key(x)
  {
    if s == [] || key(s[0]) <= key(x) {
      p := 0;
      assert s[..0] == [] && s[0..] == s;
    } else {
      var t := s[1..];
      SortedTail(s, key);
      var q := InsertDescSplit(x, t, key);
      p := q + 1;
      assert InsertDesc(x, s, key) == [s[0]] + InsertDesc(x, t, key);
      assert s[..p] == [s[0]] + t[..q] && s[p..] == t[q..];
    }
  }

  lemma SortedTail<T>(s: seq<T>, key: T -> real)
    requires s != [] && SortedDesc(s, key)
    ensures SortedDesc(s[1..], key)
  {
    forall i, j | 0 <= i < j < |s| - 1 ensures key(s[1..][i]) >= key(s[1..][j]) {
      assert s[1..][i] == s[i + 1] && s[1..][j] == s[j + 1];
    }
  }

  /** Of two elements of `r` with the same key, the one that comes first in `r` comes first in
      `xs`. */
  ghost predicate StableFrom<T>(xs: seq<T>, r: seq<T>, key: T -> real) {
    forall i, j :: 0 <= i < j < |r| && key(r[i]) == key(r[j]) ==>
      r[i] in xs && r[j] in xs && FirstPosition(xs, r[i]) < FirstPosition(xs, r[j])
  }

  /** A prefix of a stably sorted sequence is stable too. */
  lemma StablePrefix<T>(xs: seq<T>, sorted: seq<T>, r: seq<T>, key: T -> real)
    requires StableFrom(xs, sorted, key) && r <= sorted
    ensures StableFrom(xs, r, key)
  {
    assert forall i :: 0 <= i < |r| ==> r[i] == sorted[i];
  }

  /** The sort is stable: of two elements with the same key, the one that comes first in the
      input comes first in the output. */
  lemma {:induction false} SortDescStable<T>(xs: seq<T>, key: T -> real)
    requires NoDuplicates(xs)
    ensures StableFrom(xs, SortDesc(xs, key), key)
  {
    if xs != [] {
      var x, ys := xs[0], xs[1..];
      NoDuplicatesTail(xs);
      SortDescStable(ys, key);
      var s := SortDesc(ys, key);
      var p := InsertDescSplit(x, s, key);
      var r := s[..p] + [x] + s[p..];
      assert SortDesc(xs, key) == InsertDesc(x, s, key) == r;
      forall i, j | 0 <= i < j < |r| && key(r[i]) == key(r[j])
        ensures r[i] in xs && r[j] in xs && FirstPosition(xs, r[i]) < FirstPosition(xs, r[j])
      {
        StablePair(xs, s, p, key, i, j);
      }
      assert StableFrom(xs, r, key);
    }
  }

  lemma NoDuplicatesTail<T>(xs: seq<T>)
    requires xs != [] && NoDuplicates(xs)
    ensures NoDuplicates(xs[1..]) && xs[0] !in xs[1..]
  {
    var ys := xs[1..];
    forall i, j | 0 <= i < j < |ys| ensures ys[i] != ys[j] {
      assert ys[i] == xs[i + 1] && ys[j] == xs[j + 1];
    }
    forall m | 0 <= m < |ys| ensures ys[m] != xs[0] {
      assert ys[m] == xs[m + 1];
    }
  }

  /** One pair of equal keys after inserting the head `xs[0]` at `p` into the stably sorted
      tail `s`. */
  lemma StablePair<T>(xs: seq<T>, s: seq<T>, p: nat, key: T -> real, i: nat, j: nat)
    requires xs != [] && xs[0] !in xs[1..] && multiset(s) == multiset(xs[1..])
    requires StableFrom(xs[1..], s, key)
    requires p <= |s| && forall i :: 0 <= i < p ==> key(s[i]) > key(xs[0])
    requires i < j < |s| + 1
    requires var r := s[..p] + [xs[0]] + s[p..]; key(r[i]) == key(r[j])
    ensures var r := s[..p] + [xs[0]] + s[p..];
            r[i] in xs && r[j] in xs && FirstPosition(xs, r[i]) < FirstPosition(xs, r[j])
  {
    var x, ys := xs[0], xs[1..];
    var r := s[..p] + [x] + s[p..];
    InsertedAt(s, x, p, i);
    InsertedAt(s, x, p, j);
    if i == p {
      assert r[j] == s[j - 1] && s[j - 1] in multiset(ys);
      YoungerPosition(xs, r[j]);
    } else if j == p {
      assert false;
    } else {
      var i', j' := if i < p then i else i - 1, if j < p then j else j - 1;
      assert r[i] == s[i'] && r[j] == s[j'] && i' < j';
      YoungerPosition(xs, r[i]);
      YoungerPosition(xs, r[j]);
    }
  }

  /** The element at position `i` after inserting at `p`. */
  lemma InsertedAt<T>(s: seq<T>, x: T, p: nat, i: nat)
    requires p <= |s| && i <= |s|
    ensures var r := s[..p] + [x] + s[p..];
            r[i] == if i < p then s[i] else if i == p then x else s[i - 1]
  {
  }

  /** Past a first element that differs, the first position of `y` is one further in. */
  lemma YoungerPosition<T>(xs: seq<T>, y: T)
    requires xs != [] && xs[0] != y && y in xs[1..]
    ensures y in xs && FirstPosition(xs, y) == 1 + FirstPosition(xs[1..], y)
  {
  }

  function InsertAsc<T>(x: T, s: seq<T>, key: T -> string): (r: seq<T>)
    requires SortedAsc(s, key)
    ensures multiset(r) == multiset(s) + multiset{x}
    ensures SortedAsc(r, key)
  {
    if s == [] || LexLe(key(x), key(s[0])) then
      BelowHead(x, s, key);
      ConsAsc(x, s, key);
      [x] + s
    else
      LexLeTotal(key(x), key(s[0]));
      var rest := InsertAsc(x, s[1..], key);
      assert s == [s[0]] + s[1..];
      AllAbove(rest, s[1..], x, key, key(s[0]));
      ConsAsc(s[0], rest, key);
      [s[0]] + rest
  }

  /** A head at most every key of a sorted sequence keeps it sorted. */
  lemma ConsAsc<T>(h: T, s: seq<T>, key: T -> string)
    requires SortedAsc(s, key) && forall j :: 0 <= j < |s| ==> LexLe(key(h), key(s[j]))
    ensures SortedAsc([h] + s, key)
  {
    var r := [h] + s;
    forall i, j | 0 <= i < j < |r| ensures LexLe(key(r[i]), key(r[j])) {
      assert r[j] == s[j - 1];
      if i > 0 {
        assert r[i] == s[i - 1];
      }
    }
  }

  /** A key at most the first of a sorted sequence is at most all of them. */
  lemma BelowHead<T>(x: T, s: seq<T>, key: T -> string)
    requires SortedAsc(s, key) && (s != [] ==> LexLe(key(x), key(s[0])))
    ensures forall j :: 0 <= j < |s| ==> LexLe(key(x), key(s[j]))
  {
    forall j | 0 < j < |s| ensures LexLe(key(x), key(s[j])) {
      LexLeTransitive(key(x), key(s[0]), key(s[j]));
    }
  }

  /** Inserting `x` into `s` brings no key below a bound that `x` and `s` keep. */
  lemma AllAbove<T>(r: seq<T>, s: seq<T>, x: T, key: T -> string, b: string)
    requires multiset(r) == multiset(s) + multiset{x}
    requires LexLe(b, key(x)) && forall j :: 0 <= j < |s| ==> LexLe(b, key(s[j]))
    ensures forall j :: 0 <= j < |r| ==> LexLe(b, key(r[j]))
  {
    forall j | 0 <= j < |r| ensures LexLe(b, key(r[j])) {
      assert r[j] in multiset(r);
      if r[j] != x {
        assert r[j] in multiset(s);
      }
    }
  }

  /** `xs.sort((a, b) => key(a).localeCompare(key(b)))`, with the comparison taken as the
      plain character order. */
  function SortAsc<T>(xs: seq<T>, key: T -> string): (r: seq<T>)
    ensures multiset(r) == multiset(xs) && |r| == |xs|
    ensures SortedAsc(r, key)
  {
    if xs == [] then []
    else
      assert xs == [xs[0]] + xs[1..];
      InsertAsc(xs[0], SortAsc(xs[1..], key), key)
  }

  /** Sorting a sequence that is already in order changes nothing. */
  lemma {:induction false} SortDescOfSorted<T>(xs: seq<T>, key: T -> real)
    requires SortedDesc(xs, key)
    ensures SortDesc(xs, key) == xs
  {
    if xs != [] {
      SortDescOfSorted(xs[1..], key);
      assert xs == [xs[0]] + xs[1..];
    }
  }

  /** `xs.slice(0, limit)`: a negative `limit` counts from the end. */
  function Take<T>(xs: seq<T>, limit: int): (r: seq<T>)
    ensures limit >= 0 ==> |r| == if limit < |xs| then limit else |xs|
    ensures limit < 0 ==> |r| == if |xs| + limit > 0 then |xs| + limit else 0
    ensures r <= xs
  {
    var n := if limit >= 0 then (if limit < |xs| then limit else |xs|)
             else (if |xs| + limit > 0 then |xs| + limit else 0);
    xs[..n]
  }

  /** An element that a prefix of a sorted permutation does not hold has at most the key of
      every element the prefix holds. */
  lemma LeftOutBelow<T>(xs: seq<T>, sorted: seq<T>, r: seq<T>, key: T -> real, j: nat)
    requires multiset(sorted) == multiset(xs) && SortedDesc(sorted, key) && r <= sorted
    requires j < |xs| && forall i :: 0 <= i < |r| ==> r[i] != xs[j]
    ensures forall i :: 0 <= i < |r| ==> key(r[i]) >= key(xs[j])
  {
    assert xs[j] in multiset(sorted);
    var m :| 0 <= m < |sorted| && sorted[m] == xs[j];
    assert forall i :: 0 <= i < |r| ==> r[i] == sorted[i];
  }
}
