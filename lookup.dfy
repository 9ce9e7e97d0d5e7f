/** Name lookups against an ordered inventory. Every lookup in the report code is "the first
    entry, in list order, that passes a test" (`Array.prototype.find`, or a `for … of` loop
    over `Object.entries` with an early return), tried tier after tier. */
module Lookup {
  import opened Strings
  import opened Wrappers

  /** `xs.findIndex(p)`, with `None` for -1. */
  function FirstIndex<T>(xs: seq<T>, p: T -> bool): (r: Option<nat>)
    ensures r.Some? ==> r.value < |xs| && p(xs[r.value])
    ensures r.Some? ==> forall j :: 0 <= j < r.value ==> !p(xs[j])
    ensures r.None? <==> forall j :: 0 <= j < |xs| ==> !p(xs[j])
  {
    if xs == [] then None
    else if p(xs[0]) then Some(0)
    else match FirstIndex(xs[1..], p)
      case None => None
      case Some(i) => Some(i + 1)
  }

  /** A lower-cased inventory name equals the lower-cased query. */
  predicate SameName(name: string, q: string) {
    Lower(name) == q
  }

  /** A lower-cased inventory name and the lower-cased query contain one another. */
  predicate Overlaps(name: string, q: string) {
    Contains(Lower(name), q) || Contains(q, Lower(name))
  }

  /** The two-tier lookup of the in-memory store and of the seed list: the first entry whose
      lower-cased name equals the normalised query `q`, else the first whose lower-cased name
      contains `q` or is contained in it. */
  function FuzzyIndex<T>(xs: seq<T>, nameOf: T -> string, q: string): (r: Option<nat>)
    ensures r.Some? ==> r.value < |xs|
    ensures (exists i :: 0 <= i < |xs| && SameName(nameOf(xs[i]), q)) ==>
              r.Some? && SameName(nameOf(xs[r.value]), q) &&
              forall j :: 0 <= j < r.value ==> !SameName(nameOf(xs[j]), q)
    ensures (forall i :: 0 <= i < |xs| ==> !SameName(nameOf(xs[i]), q)) ==>
              (r.Some? <==> exists i :: 0 <= i < |xs| && Overlaps(nameOf(xs[i]), q)) &&
              (r.Some? ==> Overlaps(nameOf(xs[r.value]), q) &&
                           forall j :: 0 <= j < r.value ==> !Overlaps(nameOf(xs[j]), q))
  {
    var exact := FirstIndex(xs, x => SameName(nameOf(x), q));
    if exact.Some? then exact else FirstIndex(xs, x => Overlaps(nameOf(x), q))
  }

  /** A name equal to the query also overlaps it, so whenever the exact tier would hit, the
      substring tier would hit too: the order of the tiers is what decides which entry wins. */
  lemma SameNameOverlaps(name: string, q: string)
    requires SameName(name, q)
    ensures Overlaps(name, q)
  {
    assert Lower(name) <= q;
  }

  /** An empty (or all-blank) query is contained in every name, so it resolves to the first
      entry of a non-empty list unless some entry's name is itself empty. */
  lemma BlankQueryResolvesToFirst<T>(xs: seq<T>, nameOf: T -> string)
    requires xs != [] && forall i :: 0 <= i < |xs| ==> nameOf(xs[i]) != ""
    ensures FuzzyIndex(xs, nameOf, "") == Some(0)
  {
    assert Overlaps(nameOf(xs[0]), "");
    forall i | 0 <= i < |xs| ensures !SameName(nameOf(xs[i]), "") {
      assert |Lower(nameOf(xs[i]))| > 0;
    }
  }

  /** The test that an entry's key is exactly `t`. */
  function KeyIs<T>(keyOf: T -> string, t: string): T -> bool {
    (x: T) => keyOf(x) == t
  }

  /** The three-tier lookup of the keyed cost tables: the case-sensitive key equal to the
      trimmed name, else the first key equal to it ignoring case, else the first key that
      contains it or is contained in it, ignoring case. */
  function KeyedIndex<T>(xs: seq<T>, keyOf: T -> string, name: string): (r: Option<nat>)
    ensures r.Some? ==> r.value < |xs|
  {
    var t := Trim(name);
    var exact := FirstIndex(xs, KeyIs(keyOf, t));
    if exact.Some? then exact else FuzzyIndex(xs, keyOf, Lower(t))
  }
  /** The entry the three tiers pick, entry by entry: the first exact key; failing any, the
      first key equal ignoring case; failing any, the first overlapping key; else none. */
  lemma KeyedTiers<T>(xs: seq<T>, keyOf: T -> string, name: string)
    ensures forall i :: 0 <= i < |xs| && keyOf(xs[i]) == Trim(name) ==>
                        (forall j :: 0 <= j < i ==> keyOf(xs[j]) != Trim(name)) ==>
                        KeyedIndex(xs, keyOf, name) == Some(i)
    ensures (forall j :: 0 <= j < |xs| ==> keyOf(xs[j]) != Trim(name)) ==>
              forall i :: 0 <= i < |xs| && SameName(keyOf(xs[i]), Lower(Trim(name))) ==>
                          (forall j :: 0 <= j < i ==> !SameName(keyOf(xs[j]), Lower(Trim(name)))) ==>
                          KeyedIndex(xs, keyOf, name) == Some(i)
    ensures (forall j :: 0 <= j < |xs| ==> !SameName(keyOf(xs[j]), Lower(Trim(name)))) ==>
              forall i :: 0 <= i < |xs| && Overlaps(keyOf(xs[i]), Lower(Trim(name))) ==>
                          (forall j :: 0 <= j < i ==> !Overlaps(keyOf(xs[j]), Lower(Trim(name)))) ==>
                          KeyedIndex(xs, keyOf, name) == Some(i)
    ensures (forall j :: 0 <= j < |xs| ==> !Overlaps(keyOf(xs[j]), Lower(Trim(name)))) ==>
              KeyedIndex(xs, keyOf, name) == None
  {
    var t := Trim(name);
    forall i | 0 <= i < |xs| && keyOf(xs[i]) == t && (forall j :: 0 <= j < i ==> keyOf(xs[j]) != t)
      ensures KeyedIndex(xs, keyOf, name) == Some(i)
    {
      ExactTier(xs, keyOf, name, i);
    }
    if forall j :: 0 <= j < |xs| ==> keyOf(xs[j]) != t {
      forall i | 0 <= i < |xs| && SameName(keyOf(xs[i]), Lower(t)) && (forall j :: 0 <= j < i ==> !SameName(keyOf(xs[j]), Lower(t)))
        ensures KeyedIndex(xs, keyOf, name) == Some(i)
      {
        CaseTier(xs, keyOf, name, i);
      }
    }
    if forall j :: 0 <= j < |xs| ==> !SameName(keyOf(xs[j]), Lower(t)) {
      forall i | 0 <= i < |xs| && Overlaps(keyOf(xs[i]), Lower(t)) && (forall j :: 0 <= j < i ==> !Overlaps(keyOf(xs[j]), Lower(t)))
        ensures KeyedIndex(xs, keyOf, name) == Some(i)
      {
        OverlapTier(xs, keyOf, name, i);
      }
    }
    NoTier(xs, keyOf, name);
  }

  lemma ExactTier<T>(xs: seq<T>, keyOf: T -> string, name: string, i: nat)
    requires i < |xs| && keyOf(xs[i]) == Trim(name)
    requires forall j :: 0 <= j < i ==> keyOf(xs[j]) != Trim(name)
    ensures KeyedIndex(xs, keyOf, name) == Some(i)
  {
    var r := FirstIndex(xs, KeyIs(keyOf, Trim(name)));
    assert KeyIs(keyOf, Trim(name))(xs[i]);
    assert r.Some? && KeyIs(keyOf, Trim(name))(xs[r.value]);
  }

  /** A key equal to the trimmed name is also equal to it ignoring case. */
  lemma ExactIsSameName(key: string, t: string)
    requires key == t
    ensures SameName(key, Lower(t))
  {
  }

  lemma CaseTier<T>(xs: seq<T>, keyOf: T -> string, name: string, i: nat)
    requires forall j :: 0 <= j < |xs| ==> keyOf(xs[j]) != Trim(name)
    requires i < |xs| && SameName(keyOf(xs[i]), Lower(Trim(name)))
    requires forall j :: 0 <= j < i ==> !SameName(keyOf(xs[j]), Lower(Trim(name)))
    ensures KeyedIndex(xs, keyOf, name) == Some(i)
  {
    var q := Lower(Trim(name));
    NotExact(xs, keyOf, Trim(name));
    assert KeyedIndex(xs, keyOf, name) == FuzzyIndex(xs, keyOf, q);
    var r := FuzzyIndex(xs, keyOf, q);
    assert r.Some? && SameName(keyOf(xs[r.value]), q);
  }

  lemma OverlapTier<T>(xs: seq<T>, keyOf: T -> string, name: string, i: nat)
    requires forall j :: 0 <= j < |xs| ==> !SameName(keyOf(xs[j]), Lower(Trim(name)))
    requires i < |xs| && Overlaps(keyOf(xs[i]), Lower(Trim(name)))
    requires forall j :: 0 <= j < i ==> !Overlaps(keyOf(xs[j]), Lower(Trim(name)))
    ensures KeyedIndex(xs, keyOf, name) == Some(i)
  {
    var q := Lower(Trim(name));
    forall j | 0 <= j < |xs| ensures keyOf(xs[j]) != Trim(name) {
      if keyOf(xs[j]) == Trim(name) {
        ExactIsSameName(keyOf(xs[j]), Trim(name));
      }
    }
    NotExact(xs, keyOf, Trim(name));
    assert KeyedIndex(xs, keyOf, name) == FuzzyIndex(xs, keyOf, q);
    var r := FuzzyIndex(xs, keyOf, q);
    assert r.Some? && Overlaps(keyOf(xs[r.value]), q);
  }

  lemma NoTier<T>(xs: seq<T>, keyOf: T -> string, name: string)
    ensures (forall j :: 0 <= j < |xs| ==> !Overlaps(keyOf(xs[j]), Lower(Trim(name)))) ==>
            KeyedIndex(xs, keyOf, name) == None
  {
    var q := Lower(Trim(name));
    if exists j :: 0 <= j < |xs| && Overlaps(keyOf(xs[j]), q) {
      return;
    }
    forall j | 0 <= j < |xs| ensures keyOf(xs[j]) != Trim(name) && !SameName(keyOf(xs[j]), q) {
      if SameName(keyOf(xs[j]), q) {
        SameNameOverlaps(keyOf(xs[j]), q);
      }
    }
    NotExact(xs, keyOf, Trim(name));
    assert KeyedIndex(xs, keyOf, name) == FuzzyIndex(xs, keyOf, q);
  }

  /** With no exact key, the first tier finds nothing. */
  lemma NotExact<T>(xs: seq<T>, keyOf: T -> string, t: string)
    requires forall j :: 0 <= j < |xs| ==> keyOf(xs[j]) != t
    ensures FirstIndex(xs, KeyIs(keyOf, t)) == None
  {
    forall j | 0 <= j < |xs| ensures !KeyIs(keyOf, t)(xs[j]) {
    }
  }
}
