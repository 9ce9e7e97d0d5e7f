/** `extractDateRange`: the report period printed in a header cell, found with the regular
    expression `(\d{2})-(\d{2})-(\d{4})\s+to\s+(\d{2})-(\d{2})-(\d{4})` (leftmost match), and
    the header scans that feed it. The same pattern, written with two capture groups instead
    of six, is used by every parser variant; both spellings produce the same two strings. */
module DateRange {
  import opened Strings
  import opened Wrappers
  import opened Cells

  /** `dateRange` is the normalised "DD-MM-YYYY to DD-MM-YYYY"; `date` the end date as YYYY-MM-DD. */
  datatype Extracted = Extracted(dateRange: string, date: string)

  /** `\d{2}-\d{2}-\d{4}` at position `i`. */
  predicate IsDateAt(s: string, i: nat) {
    i + 10 <= |s| &&
    IsDigit(s[i]) && IsDigit(s[i + 1]) && s[i + 2] == '-' &&
    IsDigit(s[i + 3]) && IsDigit(s[i + 4]) && s[i + 5] == '-' &&
    IsDigit(s[i + 6]) && IsDigit(s[i + 7]) && IsDigit(s[i + 8]) && IsDigit(s[i + 9])
  }

  /** Every character from `i` up to `j` is white space. */
  predicate AllSpace(s: string, i: nat, j: nat)
    requires i <= j <= |s|
    decreases j - i
  {
    i == j || (IsSpace(s[i]) && AllSpace(s, i + 1, j))
  }

  /** The pattern matches at `p` when its first `\s+` takes `n1` characters and its second
      `n2`: this is the regular expression's meaning, with every way of splitting the
      white space allowed. */
  predicate MatchesWith(s: string, p: nat, n1: nat, n2: nat) {
    n1 >= 1 && n2 >= 1 && p + 22 + n1 + n2 <= |s| &&
    IsDateAt(s, p) &&
    AllSpace(s, p + 10, p + 10 + n1) &&
    s[p + 10 + n1] == 't' && s[p + 11 + n1] == 'o' &&
    AllSpace(s, p + 12 + n1, p + 12 + n1 + n2) &&
    IsDateAt(s, p + 12 + n1 + n2)
  }

  /** The length of the run of white space starting at `i`. */
  function SpaceRun(s: string, i: nat): (n: nat)
    requires i <= |s|
    ensures i + n <= |s|
    ensures AllSpace(s, i, i + n)
    ensures i + n == |s| || !IsSpace(s[i + n])
    decreases |s| - i
  {
    if i < |s| && IsSpace(s[i]) then 1 + SpaceRun(s, i + 1) else 0
  }

  /** A run of white space followed by a non-space is the whole run. */
  lemma {:induction false} SpaceRunUnique(s: string, i: nat, n: nat)
    requires i + n < |s| && AllSpace(s, i, i + n) && !IsSpace(s[i + n])
    ensures SpaceRun(s, i) == n
    decreases n
  {
    if n > 0 {
      SpaceRunUnique(s, i + 1, n - 1);
    }
  }

  /** The match attempt at one position. A greedy `\s+` followed by `t` or by a digit can
      only end where the white space ends, so no backtracking is needed. */
  function MatchAt(s: string, p: nat): Option<(string, string)> {
    if !IsDateAt(s, p) then None
    else
      var n1 := SpaceRun(s, p + 10);
      var q := p + 10 + n1;
      if n1 == 0 || q + 2 > |s| || s[q] != 't' || s[q + 1] != 'o' then None
      else
        var n2 := SpaceRun(s, q + 2);
        var e := q + 2 + n2;
        if n2 == 0 || !IsDateAt(s, e) then None
        else Some((s[p..p + 10], s[e..e + 10]))
  }

  /** Every match of the pattern at `p` is the one `MatchAt` finds. */
  lemma MatchesWithFound(s: string, p: nat, n1: nat, n2: nat)
    requires MatchesWith(s, p, n1, n2)
    ensures MatchAt(s, p) == Some((s[p..p + 10], s[p + 12 + n1 + n2..p + 22 + n1 + n2]))
  {
    var q, e := p + 10 + n1, p + 12 + n1 + n2;
    assert s[q] == 't' && !IsSpace(s[q]);
    SpaceRunUnique(s, p + 10, n1);
    assert IsDigit(s[e]) && !IsSpace(s[e]);
    SpaceRunUnique(s, q + 2, n2);
    MatchAtRuns(s, p, n1, n2);
  }

  /** `MatchAt` with the two runs of white space already measured. */
  lemma MatchAtRuns(s: string, p: nat, n1: nat, n2: nat)
    requires IsDateAt(s, p) && n1 >= 1 && n2 >= 1 && p + 10 + n1 + 2 <= |s|
    requires SpaceRun(s, p + 10) == n1 && s[p + 10 + n1] == 't' && s[p + 11 + n1] == 'o'
    requires SpaceRun(s, p + 12 + n1) == n2 && IsDateAt(s, p + 12 + n1 + n2)
    ensures MatchAt(s, p) == Some((s[p..p + 10], s[p + 12 + n1 + n2..p + 22 + n1 + n2]))
  {
    var q := p + 10 + n1;
    var e := q + 2 + n2;
    assert !(n1 == 0 || q + 2 > |s| || s[q] != 't' || s[q + 1] != 'o');
    assert !(n2 == 0 || !IsDateAt(s, e));
    assert MatchAt(s, p) == Some((s[p..p + 10], s[e..e + 10]));
    assert e == p + 12 + n1 + n2 && e + 10 == p + 22 + n1 + n2;
  }

  /** What `MatchAt` finds is a match of the pattern. */
  lemma FoundMatches(s: string, p: nat)
    requires MatchAt(s, p).Some?
    ensures MatchesWith(s, p, SpaceRun(s, p + 10), SpaceRun(s, p + 12 + SpaceRun(s, p + 10)))
  {
  }

  /** `MatchAt` succeeds exactly where the pattern matches, and captures the two dates of
      that match, however the white space is split. */
  lemma MatchAtCorrect(s: string, p: nat)
    ensures MatchAt(s, p).None? ==> forall n1: nat, n2: nat :: !MatchesWith(s, p, n1, n2)
    ensures forall n1: nat, n2: nat :: MatchesWith(s, p, n1, n2) ==>
              MatchAt(s, p) == Some((s[p..p + 10], s[p + 12 + n1 + n2..p + 22 + n1 + n2]))
  {
    forall n1: nat, n2: nat | MatchesWith(s, p, n1, n2)
      ensures MatchAt(s, p) == Some((s[p..p + 10], s[p + 12 + n1 + n2..p + 22 + n1 + n2]))
    {
      MatchesWithFound(s, p, n1, n2);
    }
  }

  /** `String.prototype.match` without the global flag: the leftmost position at or after
      `from` where the pattern matches. */
  function Search(s: string, from: nat): (r: Option<(nat, string, string)>)
    requires from <= |s|
    ensures r.None? ==> forall q :: from <= q <= |s| ==> MatchAt(s, q).None?
    ensures r.Some? ==> from <= r.value.0 <= |s| && MatchAt(s, r.value.0) == Some((r.value.1, r.value.2))
    ensures r.Some? ==> forall q :: from <= q < r.value.0 ==> MatchAt(s, q).None?
    decreases |s| - from
  {
    var m := MatchAt(s, from);
    if m.Some? then Some((from, m.value.0, m.value.1))
    else if from == |s| then None
    else Search(s, from + 1)
  }

  /** The end date "DD-MM-YYYY" rewritten as "YYYY-MM-DD". */
  function EndDate(b: string): (r: string)
    requires |b| == 10
    ensures |r| == 10 && r[4] == '-' && r[7] == '-'
    ensures r[..4] == b[6..] && r[5..7] == b[3..5] && r[8..] == b[..2]
  {
    b[6..10] + "-" + b[3..5] + "-" + b[0..2]
  }

  /** `extractDateRange(text)`, with the current date passed in as `today`. */
  function ExtractDateRange(text: string, today: string): (r: Extracted)
    ensures r.dateRange == "" ==> r.date == today
    ensures r.dateRange != "" ==> |r.dateRange| == 24 && r.dateRange[10..14] == " to " && r.date == EndDate(r.dateRange[14..])
  {
    match Search(text, 0)
    case None => Extracted("", today)
    case Some((_, a, b)) =>
      var range := a + " to " + b;
      assert range[14..] == b;
      Extracted(range, EndDate(b))
  }

  /** `extractDateRange` gives the empty range, and today's date, exactly when the pattern
      matches nowhere in the text. */
  lemma ExtractNoMatch(text: string, today: string)
    ensures ExtractDateRange(text, today).dateRange == "" <==>
            forall p: nat, n1: nat, n2: nat :: !MatchesWith(text, p, n1, n2)
  {
    match Search(text, 0)
    case None =>
      forall p: nat, n1: nat, n2: nat ensures !MatchesWith(text, p, n1, n2) {
        if p <= |text| {
          MatchAtCorrect(text, p);
        }
      }
    case Some((p, a, b)) =>
      FoundMatches(text, p);
  }

  /** `extractDateRange(String(rows[1]?.[0] || ''))`, the header read of the report routes and
      of lib/excel-parser-new.ts and lib/excel-parser.ts: only the first cell of the second
      row is read. */
  function Period(rows: seq<Row>, today: string): (e: Extracted)
    ensures e == ExtractDateRange(TextOr(CellAt(rows, 1, 0), ""), today)
    ensures !Truthy(CellAt(rows, 1, 0)) ==> e == Extracted("", today)
  {
    var e := ExtractDateRange(TextOr(CellAt(rows, 1, 0), ""), today);
    if !Truthy(CellAt(rows, 1, 0)) then
      ExtractNoMatch("", today);
      e
    else e
  }

  /** The pattern matches at `p`, and at no earlier position. */
  ghost predicate LeftmostMatch(s: string, p: nat, n1: nat, n2: nat) {
    MatchesWith(s, p, n1, n2) &&
    forall q: nat, m1: nat, m2: nat :: q < p ==> !MatchesWith(s, q, m1, m2)
  }

  /** Otherwise the range is the leftmost match's two dates joined by a single " to ". */
  lemma ExtractLeftmost(text: string, today: string) returns (p: nat, n1: nat, n2: nat)
    requires ExtractDateRange(text, today).dateRange != ""
    ensures LeftmostMatch(text, p, n1, n2)
    ensures ExtractDateRange(text, today).dateRange ==
              text[p..p + 10] + " to " + text[p + 12 + n1 + n2..p + 22 + n1 + n2]
  {
    var found := Search(text, 0);
    var a, b;
    p, a, b := found.value.0, found.value.1, found.value.2;
    n1, n2 := SearchLeftmost(text, p, a, b);
  }

  /** The position `Search` finds is the leftmost match, and its captures are that match's dates. */
  lemma SearchLeftmost(text: string, p: nat, a: string, b: string) returns (n1: nat, n2: nat)
    requires Search(text, 0) == Some((p, a, b))
    ensures LeftmostMatch(text, p, n1, n2)
    ensures a == text[p..p + 10] && b == text[p + 12 + n1 + n2..p + 22 + n1 + n2]
  {
    FoundMatches(text, p);
    n1 := SpaceRun(text, p + 10);
    n2 := SpaceRun(text, p + 12 + n1);
    MatchesWithFound(text, p, n1, n2);
    NoEarlierMatch(text, p);
  }

  /** Where `MatchAt` fails at every position before `p`, the pattern matches nowhere before it. */
  lemma NoEarlierMatch(text: string, p: nat)
    requires p <= |text| && forall q :: 0 <= q < p ==> MatchAt(text, q).None?
    ensures forall q: nat, m1: nat, m2: nat :: q < p ==> !MatchesWith(text, q, m1, m2)
  {
    forall q: nat, m1: nat, m2: nat | q < p ensures !MatchesWith(text, q, m1, m2) {
      MatchAtCorrect(text, q);
    }
  }

  /** A well-formed range "DD-MM-YYYY to DD-MM-YYYY" is recognised as itself, so applying
      the extraction to its own output changes nothing. */
  lemma {:induction false} ExtractFormatted(a: string, b: string, today: string)
    requires |a| == 10 && |b| == 10 && IsDateAt(a, 0) && IsDateAt(b, 0)
    ensures ExtractDateRange(a + " to " + b, today) == Extracted(a + " to " + b, EndDate(b))
  {
    var s := a + " to " + b;
    assert s[..10] == a && s[14..24] == b && s[10..14] == " to ";
    assert IsDateAt(s, 0) && IsDateAt(s, 14) by {
      forall k | 0 <= k < 10 ensures s[k] == a[k] && s[14 + k] == b[k] {
        assert s[k] == s[..10][k] && s[14 + k] == s[14..24][k];
      }
    }
    assert MatchesWith(s, 0, 1, 1);
    MatchesWithFound(s, 0, 1, 1);
    assert Search(s, 0) == Some((0, a, b));
  }

  lemma ExtractIdempotent(text: string, today: string, other: string)
    ensures var r := ExtractDateRange(text, today);
            r.dateRange != "" ==> ExtractDateRange(r.dateRange, other) == r
  {
    match Search(text, 0)
    case None =>
    case Some((p, a, b)) =>
      FoundDates(text, p, a, b);
      ExtractFormatted(a, b, other);
  }

  /** The two dates of a match are ten-character dates. */
  lemma FoundDates(text: string, p: nat, a: string, b: string)
    requires p <= |text| && MatchAt(text, p) == Some((a, b))
    ensures |a| == 10 && |b| == 10 && IsDateAt(a, 0) && IsDateAt(b, 0)
  {
    assert IsDateAt(text, p);
    assert a == text[p..p + 10];
    var e := p + 12 + SpaceRun(text, p + 10) + SpaceRun(text, p + 12 + SpaceRun(text, p + 10));
    assert b == text[e..e + 10];
  }

  /** The first header row of the period: the report's example header. */
  lemma ExampleHeader()
    ensures ExtractDateRange("17-10-2025 to 18-10-2025", "2026-01-01") ==
            Extracted("17-10-2025 to 18-10-2025", "2025-10-18")
  {
    var a, b := "17-10-2025", "18-10-2025";
    assert a + " to " + b == "17-10-2025 to 18-10-2025";
    assert EndDate(b) == "2025-10-18";
    assert IsDateAt(a, 0) && IsDateAt(b, 0);
    ExtractFormatted(a, b, "2026-01-01");
  }

  /** Free text with no period in it falls back to today's date. */
  lemma NoHeader()
    ensures ExtractDateRange("Acme Bar", "2026-01-01") == Extracted("", "2026-01-01")
  {
    assert Search("Acme Bar", 0).None?;
  }
}
