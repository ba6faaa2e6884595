/**
 * The recent-search list of the dashboard (`saveRecentSearch`): a most-recent-first list of
 * place names, updated by move-to-front with de-duplication and a length cap.
 */
module RecentSearches {

  /** The number of entries `saveRecentSearch` keeps. */
  const MaxRecent: nat := 5

  predicate NoDuplicates(s: seq<string>) {
    forall i, j :: 0 <= i < j < |s| ==> s[i] != s[j]
  }

  /** The invariant the list is meant to keep: bounded and free of repeats. */
  predicate ValidRecent(s: seq<string>) {
    |s| <= MaxRecent && NoDuplicates(s)
  }

  /** `s` with every copy of `x` removed, the rest in order. */
  function Without(s: seq<string>, x: string): (r: seq<string>)
    ensures x !in r
    ensures |r| <= |s|
  {
    if s == [] then []
    else if s[0] == x then Without(s[1..], x)
    else [s[0]] + Without(s[1..], x)
  }

  /** The filter removes every copy of `x` and keeps every other entry, as often as it occurred. */
  lemma {:induction false} WithoutMultiset(s: seq<string>, x: string)
    ensures multiset(Without(s, x)) == multiset(s)[x := 0]
  {
    if s != [] {
      assert s == [s[0]] + s[1..];
      WithoutMultiset(s[1..], x);
    }
  }

  /**
   * The list after searching `city`: `city` first, then the old entries other than `city`,
   * the whole cut to `MaxRecent` entries.
   */
  function SaveRecentSearch(recent: seq<string>, city: string): (r: seq<string>)
    ensures 1 <= |r| <= MaxRecent
    ensures r[0] == city && city !in r[1..]
    ensures multiset(r)[city] == 1
    ensures r[1..] <= Without(recent, city)
    ensures |r| == if 1 + |Without(recent, city)| <= MaxRecent then 1 + |Without(recent, city)| else MaxRecent
  {
    var w := Without(recent, city);
    WithoutMultiset(recent, city);
    var updated := [city] + w;
    var r := if |updated| <= MaxRecent then updated else updated[..MaxRecent];
    assert r == [city] + r[1..];
    assert r[1..] == w[..|r| - 1];
    assert multiset(w)[city] == 0;
    r
  }

  /** Removing an absent name changes nothing. */
  lemma {:induction false} WithoutAbsent(s: seq<string>, x: string)
    requires x !in s
    ensures Without(s, x) == s
  {
    if s != [] {
      WithoutAbsent(s[1..], x);
    }
  }

  /** Removal works element by element: it keeps the relative order of what it keeps. */
  lemma {:induction false} WithoutConcat(a: seq<string>, b: seq<string>, x: string)
    ensures Without(a + b, x) == Without(a, x) + Without(b, x)
  {
    if a == [] {
      assert a + b == b;
    } else {
      assert (a + b)[1..] == a[1..] + b;
      WithoutConcat(a[1..], b, x);
    }
  }

  /** Removal keeps a repeat-free list repeat-free. */
  lemma {:induction false} WithoutNoDuplicates(s: seq<string>, x: string)
    requires NoDuplicates(s)
    ensures NoDuplicates(Without(s, x))
  {
    if s != [] {
      WithoutNoDuplicates(s[1..], x);
      var t := Without(s[1..], x);
      WithoutMultiset(s[1..], x);
      if s[0] != x {
        assert s[0] !in s[1..];
        assert multiset(t)[s[0]] == 0;
        assert s[0] !in t;
      }
    }
  }

  /** Saving keeps a repeat-free list repeat-free, and so keeps `ValidRecent`. */
  lemma SavePreservesValid(recent: seq<string>, city: string)
    requires NoDuplicates(recent)
    ensures ValidRecent(SaveRecentSearch(recent, city))
  {
    var w := Without(recent, city);
    var r := SaveRecentSearch(recent, city);
    WithoutNoDuplicates(recent, city);
    assert r[1..] == w[..|r| - 1];
    forall i, j | 0 <= i < j < |r| ensures r[i] != r[j] {
      if i == 0 {
        assert r[j] in r[1..];
      } else {
        assert r[i] == w[i - 1] && r[j] == w[j - 1];
      }
    }
  }

  /** Searching the same city twice in a row is the same as searching it once. */
  lemma SaveIdempotent(recent: seq<string>, city: string)
    ensures SaveRecentSearch(SaveRecentSearch(recent, city), city) == SaveRecentSearch(recent, city)
  {
    var r := SaveRecentSearch(recent, city);
    assert r == [city] + r[1..];
    WithoutConcat([city], r[1..], city);
    WithoutAbsent(r[1..], city);
    assert Without([city], city) == [];
  }

  /** In a repeat-free list, the entry at `i` occurs nowhere else. */
  lemma OccursOnlyAt(s: seq<string>, i: nat)
    requires NoDuplicates(s) && i < |s|
    ensures s[i] !in s[..i] && s[i] !in s[i + 1..]
  {
  }

  /** Removing the one copy of `x` between two runs that lack it joins the runs. */
  lemma {:induction false} WithoutSplit(before: seq<string>, x: string, after: seq<string>)
    requires x !in before && x !in after
    ensures Without(before + [x] + after, x) == before + after
    decreases |before|
  {
    if before == [] {
      assert before + [x] + after == [x] + after;
      assert ([x] + after)[1..] == after;
      WithoutAbsent(after, x);
    } else {
      assert (before + [x] + after)[1..] == before[1..] + [x] + after;
      WithoutSplit(before[1..], x, after);
      assert before + after == [before[0]] + (before[1..] + after);
    }
  }

  lemma SplitAt(s: seq<string>, i: nat)
    requires i < |s|
    ensures s == s[..i] + [s[i]] + s[i + 1..]
  {
  }

  /** In a repeat-free list, removing the entry at `i` leaves the others in order. */
  lemma WithoutDistinctAt(s: seq<string>, i: nat)
    requires NoDuplicates(s) && i < |s|
    ensures Without(s, s[i]) == s[..i] + s[i + 1..]
  {
    OccursOnlyAt(s, i);
    SplitAt(s, i);
    WithoutSplit(s[..i], s[i], s[i + 1..]);
  }

  /** Re-searching a listed city moves it to the front; the others keep their order and nothing is evicted. */
  lemma SaveMovesToFront(recent: seq<string>, city: string, i: nat)
    requires ValidRecent(recent)
    requires i < |recent| && recent[i] == city
    ensures SaveRecentSearch(recent, city) == [city] + recent[..i] + recent[i + 1..]
  {
    WithoutDistinctAt(recent, i);
    var w := Without(recent, city);
    assert |w| == |recent| - 1;
    var r := SaveRecentSearch(recent, city);
    assert |r| == 1 + |w|;
    assert r == [city] + w;
  }

  /** Searching a new city puts it in front and, on a full list, evicts the oldest entry. */
  lemma SaveNewEvictsOldest(recent: seq<string>, city: string)
    requires city !in recent
    ensures SaveRecentSearch(recent, city)
         == if |recent| < MaxRecent then [city] + recent else [city] + recent[..MaxRecent - 1]
  {
    WithoutAbsent(recent, city);
  }

  /** Searching "Paris", "Tokyo" and "Paris" again from an empty list leaves ["Paris", "Tokyo"]. */
  lemma ParisTokyoParis()
    ensures SaveRecentSearch(SaveRecentSearch(SaveRecentSearch([], "Paris"), "Tokyo"), "Paris")
         == ["Paris", "Tokyo"]
  {
  }
}
