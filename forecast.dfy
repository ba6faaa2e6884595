/**
 * The five-day forecast: the provider's 3-hour entries reduced to one summary per calendar
 * day, the first entry of each day deciding that day's summary, at most five days.
 */
module Forecast {
  import opened Wrappers
  import opened Payloads

  /** The number of days the dashboard keeps. */
  const MaxDays: nat := 5

  /** One 3-hour entry of the forecast payload's `list`. */
  datatype ForecastItem = ForecastItem(dt: int, tempMin: real, tempMax: real, weather: seq<Descriptor>)

  /** One displayed day (`ForecastDay`). */
  datatype ForecastDay = ForecastDay(
    date: string, minTemp: int, maxTemp: int, description: string, icon: string, main: string)

  /**
   * The browser's calendar, which depends on its time zone and locale: `dayKey` is
   * the `toDateString` of the entry's timestamp and `dayLabel` its short `toLocaleDateString`.
   */
  datatype Calendar = Calendar(dayKey: int -> string, dayLabel: int -> string)

  /** The calendar day of entry `i`. */
  function Key(items: seq<ForecastItem>, cal: Calendar, i: nat): string
    requires i < |items|
  {
    cal.dayKey(items[i].dt)
  }

  predicate InBounds(p: seq<nat>, n: nat) {
    forall j :: 0 <= j < |p| ==> p[j] < n
  }

  /** The days of the entries at positions `p` (the `processedDays` set). */
  function KeysOf(items: seq<ForecastItem>, cal: Calendar, p: seq<nat>): set<string>
    requires InBounds(p, |items|)
  {
    if p == [] then {}
    else KeysOf(items, cal, p[..|p| - 1]) + {Key(items, cal, p[|p| - 1])}
  }

  /**
   * The positions, among the first `n` entries, of the entries the loop summarises: an entry
   * is taken when its day has not been taken yet and fewer than `MaxDays` days are held.
   */
  function Picks(items: seq<ForecastItem>, cal: Calendar, n: nat): (p: seq<nat>)
    requires n <= |items|
    ensures |p| <= MaxDays
    ensures InBounds(p, n)
  {
    if n == 0 then []
    else
      var p := Picks(items, cal, n - 1);
      if Key(items, cal, n - 1) !in KeysOf(items, cal, p) && |p| < MaxDays then p + [n - 1] else p
  }

  /** The positions of the summarised entries of the whole list. */
  function Days(items: seq<ForecastItem>, cal: Calendar): seq<nat> {
    Picks(items, cal, |items|)
  }

  /** Every summarised entry has a weather descriptor (the source reads `weather[0]`). */
  predicate Described(items: seq<ForecastItem>, p: seq<nat>)
    requires InBounds(p, |items|)
  {
    forall j :: 0 <= j < |p| ==> |items[p[j]].weather| > 0
  }

  /** The displayed day of one entry. */
  function Summarise(item: ForecastItem, cal: Calendar): (d: ForecastDay)
    requires |item.weather| > 0
    ensures d.date == cal.dayLabel(item.dt)
    ensures item.tempMin - 0.5 < d.minTemp as real <= item.tempMin + 0.5
    ensures item.tempMax - 0.5 < d.maxTemp as real <= item.tempMax + 0.5
    ensures d.description == item.weather[0].description && d.icon == item.weather[0].icon
    ensures d.main == item.weather[0].main
  {
    var w := item.weather[0];
    ForecastDay(cal.dayLabel(item.dt), Round(item.tempMin), Round(item.tempMax), w.description, w.icon, w.main)
  }

  function Summaries(items: seq<ForecastItem>, cal: Calendar, p: seq<nat>): seq<ForecastDay>
    requires InBounds(p, |items|) && Described(items, p)
  {
    seq(|p|, m requires 0 <= m < |p| => Summarise(items[p[m]], cal))
  }

  /**
   * The forecast the dashboard displays, or None when an entry it summarises has no
   * weather descriptor (the source throws then).
   */
  function DailyForecast(items: seq<ForecastItem>, cal: Calendar): (r: Option<seq<ForecastDay>>)
    ensures r.Some? ==> |r.value| == |Days(items, cal)| <= MaxDays
  {
    var p := Days(items, cal);
    if Described(items, p) then Some(Summaries(items, cal, p)) else None
  }

  /** The loop over the forecast entries, with its set of days seen and its list of summaries. */
  method AggregateDaily(items: seq<ForecastItem>, cal: Calendar) returns (r: Option<seq<ForecastDay>>)
    ensures r == DailyForecast(items, cal)
  {
    var dailyForecasts: seq<ForecastDay> := [];
    var processedDays: set<string> := {};
    for i := 0 to |items|
      invariant processedDays == KeysOf(items, cal, Picks(items, cal, i))
      invariant Described(items, Picks(items, cal, i))
      invariant dailyForecasts == Summaries(items, cal, Picks(items, cal, i))
    {
      ghost var p := Picks(items, cal, i);
      PicksStep(items, cal, i);
      var dayKey := cal.dayKey(items[i].dt);
      if dayKey !in processedDays && |dailyForecasts| < MaxDays {
        if |items[i].weather| == 0 {
          TakenUndescribedFails(items, cal, i);
          return None;
        }
        KeysOfAppend(items, cal, p, i);
        SummariesAppend(items, cal, p, i);
        processedDays := processedDays + {dayKey};
        dailyForecasts := dailyForecasts + [Summarise(items[i], cal)];
      }
    }
    return Some(dailyForecasts);
  }

  /** One turn of the loop: entry `i` is taken exactly when its day is new and room is left. */
  lemma PicksStep(items: seq<ForecastItem>, cal: Calendar, i: nat)
    requires i < |items|
    ensures var p := Picks(items, cal, i);
      Picks(items, cal, i + 1) == if Key(items, cal, i) !in KeysOf(items, cal, p) && |p| < MaxDays then p + [i] else p
  {
  }

  lemma SummariesAppend(items: seq<ForecastItem>, cal: Calendar, p: seq<nat>, i: nat)
    requires InBounds(p, |items|) && Described(items, p)
    requires i < |items| && |items[i].weather| > 0
    ensures InBounds(p + [i], |items|) && Described(items, p + [i])
    ensures Summaries(items, cal, p + [i]) == Summaries(items, cal, p) + [Summarise(items[i], cal)]
  {
  }

  /** An entry that is taken but has no weather descriptor makes the whole forecast fail. */
  lemma TakenUndescribedFails(items: seq<ForecastItem>, cal: Calendar, i: nat)
    requires i < |items| && |items[i].weather| == 0
    requires Picks(items, cal, i + 1) == Picks(items, cal, i) + [i]
    ensures DailyForecast(items, cal) == None
  {
    var p := Picks(items, cal, i + 1);
    PicksPrefix(items, cal, i + 1, |items|);
    var d := Days(items, cal);
    assert d[|p| - 1] == p[|p| - 1] == i;
    assert !Described(items, d);
  }

  predicate Ordered(p: seq<nat>) {
    forall a, b :: 0 <= a < b < |p| ==> p[a] < p[b]
  }

  predicate DistinctDays(items: seq<ForecastItem>, cal: Calendar, p: seq<nat>)
    requires InBounds(p, |items|)
  {
    forall a, b :: 0 <= a < b < |p| ==> Key(items, cal, p[a]) != Key(items, cal, p[b])
  }

  /** The taken entries are in list order. */
  lemma {:induction false} PicksOrdered(items: seq<ForecastItem>, cal: Calendar, n: nat)
    requires n <= |items|
    ensures Ordered(Picks(items, cal, n))
    decreases n
  {
    if n > 0 {
      PicksOrdered(items, cal, n - 1);
      var p := Picks(items, cal, n - 1);
      var p' := Picks(items, cal, n);
      if p' != p {
        assert p' == p + [n - 1];
        forall a, b | 0 <= a < b < |p'| ensures p'[a] < p'[b] {
          assert p'[a] == p[a];
        }
      }
    }
  }

  /** The taken entries fall on pairwise distinct days. */
  lemma {:induction false} PicksDistinctDays(items: seq<ForecastItem>, cal: Calendar, n: nat)
    requires n <= |items|
    ensures DistinctDays(items, cal, Picks(items, cal, n))
    decreases n
  {
    if n > 0 {
      PicksDistinctDays(items, cal, n - 1);
      var p := Picks(items, cal, n - 1);
      var p' := Picks(items, cal, n);
      if p' != p {
        assert p' == p + [n - 1];
        forall a, b | 0 <= a < b < |p'| ensures Key(items, cal, p'[a]) != Key(items, cal, p'[b]) {
          assert p'[a] == p[a];
          if b == |p| {
            KeysOfContains(items, cal, p, a);
          } else {
            assert p'[b] == p[b];
          }
        }
      }
    }
  }

  /** Looking further down the list only ever appends to what was taken so far. */
  lemma {:induction false} PicksPrefix(items: seq<ForecastItem>, cal: Calendar, n: nat, m: nat)
    requires n <= m <= |items|
    ensures Picks(items, cal, n) <= Picks(items, cal, m)
    decreases m
  {
    if n < m {
      PicksPrefix(items, cal, n, m - 1);
    }
  }

  /** Every taken entry's day is in `processedDays`. */
  lemma {:induction false} KeysOfContains(items: seq<ForecastItem>, cal: Calendar, p: seq<nat>, j: nat)
    requires InBounds(p, |items|) && j < |p|
    ensures Key(items, cal, p[j]) in KeysOf(items, cal, p)
    decreases |p|
  {
    if j < |p| - 1 {
      KeysOfContains(items, cal, p[..|p| - 1], j);
    }
  }

  lemma KeysOfAppend(items: seq<ForecastItem>, cal: Calendar, p: seq<nat>, i: nat)
    requires InBounds(p, |items|) && i < |items|
    ensures KeysOf(items, cal, p + [i]) == KeysOf(items, cal, p) + {Key(items, cal, i)}
  {
    assert (p + [i])[..|p|] == p;
  }

  /**
   * No day is skipped: while fewer than `MaxDays` days are held, every entry's day has been
   * taken, and once `MaxDays` are held, every entry before the last one taken has its day taken.
   */
  lemma {:induction false} PicksComplete(items: seq<ForecastItem>, cal: Calendar, n: nat, k: nat)
    requires k < n <= |items|
    requires |Picks(items, cal, n)| < MaxDays || k < Picks(items, cal, n)[MaxDays - 1]
    ensures Key(items, cal, k) in KeysOf(items, cal, Picks(items, cal, n))
    decreases n
  {
    var p := Picks(items, cal, n - 1);
    var p' := Picks(items, cal, n);
    var taken := Key(items, cal, n - 1) !in KeysOf(items, cal, p) && |p| < MaxDays;
    if taken {
      assert p' == p + [n - 1];
      KeysOfAppend(items, cal, p, n - 1);
      if k < n - 1 {
        assert |p| < MaxDays;
        PicksComplete(items, cal, n - 1, k);
      }
    } else {
      assert p' == p;
      if k < n - 1 {
        PicksComplete(items, cal, n - 1, k);
      }
    }
  }

  /** Each taken entry is the first entry of its day: later entries of a day are ignored. */
  lemma {:induction false} PicksFirstOfDay(items: seq<ForecastItem>, cal: Calendar, n: nat, a: nat, k: nat)
    requires n <= |items|
    requires a < |Picks(items, cal, n)| && k < Picks(items, cal, n)[a]
    ensures Key(items, cal, k) != Key(items, cal, Picks(items, cal, n)[a])
    decreases n
  {
    var p := Picks(items, cal, n - 1);
    var p' := Picks(items, cal, n);
    if a < |p| {
      assert p'[a] == p[a];
      PicksFirstOfDay(items, cal, n - 1, a, k);
    } else {
      assert p' == p + [n - 1] && p'[a] == n - 1;
      PicksComplete(items, cal, n - 1, k);
    }
  }

  /** Once `MaxDays` days are held, the remaining entries change nothing. */
  lemma {:induction false} PicksSaturated(items: seq<ForecastItem>, cal: Calendar, n: nat, m: nat)
    requires n <= m <= |items|
    requires |Picks(items, cal, n)| == MaxDays
    ensures Picks(items, cal, m) == Picks(items, cal, n)
    decreases m
  {
    if n < m {
      PicksSaturated(items, cal, n, m - 1);
    }
  }

  lemma {:induction false} KeysOfExtend(items: seq<ForecastItem>, more: seq<ForecastItem>, cal: Calendar, p: seq<nat>)
    requires InBounds(p, |items|)
    ensures KeysOf(items + more, cal, p) == KeysOf(items, cal, p)
    decreases |p|
  {
    if p != [] {
      KeysOfExtend(items, more, cal, p[..|p| - 1]);
    }
  }

  /** What is taken from a prefix of the list does not depend on what follows it. */
  lemma {:induction false} PicksExtend(items: seq<ForecastItem>, more: seq<ForecastItem>, cal: Calendar, n: nat)
    requires n <= |items|
    ensures Picks(items + more, cal, n) == Picks(items, cal, n)
    decreases n
  {
    if n > 0 {
      var all := items + more;
      PicksExtend(items, more, cal, n - 1);
      var p := Picks(items, cal, n - 1);
      assert Picks(all, cal, n - 1) == p;
      KeysOfExtend(items, more, cal, p);
      assert all[n - 1] == items[n - 1];
      assert Key(all, cal, n - 1) == Key(items, cal, n - 1);
    }
  }

  lemma SummariesExtend(items: seq<ForecastItem>, more: seq<ForecastItem>, cal: Calendar, p: seq<nat>)
    requires InBounds(p, |items|)
    ensures InBounds(p, |items + more|)
    ensures Described(items + more, p) == Described(items, p)
    ensures Described(items, p) ==> Summaries(items + more, cal, p) == Summaries(items, cal, p)
  {
    assert forall j :: 0 <= j < |p| ==> (items + more)[p[j]] == items[p[j]];
  }

  /** Entries after a list that already spans `MaxDays` days do not change the forecast. */
  lemma FullForecastIgnoresTail(items: seq<ForecastItem>, more: seq<ForecastItem>, cal: Calendar)
    requires |Days(items, cal)| == MaxDays
    ensures Days(items + more, cal) == Days(items, cal)
    ensures DailyForecast(items + more, cal) == DailyForecast(items, cal)
  {
    var all := items + more;
    var p := Days(items, cal);
    PicksExtend(items, more, cal, |items|);
    assert Picks(all, cal, |items|) == p;
    PicksSaturated(all, cal, |items|, |all|);
    assert Days(all, cal) == p;
    SummariesExtend(items, more, cal, p);
  }

  /** Of two entries on the same day, the first decides the summary and the second is ignored. */
  lemma FirstEntryDecidesDay(a: ForecastItem, b: ForecastItem, cal: Calendar)
    requires cal.dayKey(a.dt) == cal.dayKey(b.dt)
    requires |a.weather| > 0
    ensures DailyForecast([a, b], cal) == Some([Summarise(a, cal)])
  {
    var items := [a, b];
    assert Picks(items, cal, 1) == [0];
    KeysOfAppend(items, cal, [], 0);
    KeysOfContains(items, cal, [0], 0);
    assert Picks(items, cal, 2) == [0];
    assert Summaries(items, cal, [0]) == [Summarise(a, cal)];
  }

  /** A day read at 58/71 and later at 55/75 is shown as 58/71. */
  lemma FirstEntryDecidesDayExample(cal: Calendar, d: Descriptor)
    requires cal.dayKey(1748833200) == cal.dayKey(1748844000)
    ensures
      var first := ForecastItem(1748833200, 58.0, 71.0, [d]);
      var later := ForecastItem(1748844000, 55.0, 75.0, [d]);
      var r := DailyForecast([first, later], cal);
      r.Some? && |r.value| == 1 && r.value[0].minTemp == 58 && r.value[0].maxTemp == 71
  {
    var first := ForecastItem(1748833200, 58.0, 71.0, [d]);
    var later := ForecastItem(1748844000, 55.0, 75.0, [d]);
    FirstEntryDecidesDay(first, later, cal);
    assert Round(58.0) == 58 && Round(71.0) == 71;
  }

  /**
   * Each displayed day is the summary of the first entry of a distinct day, and the days
   * appear in the order in which they first occur in the list.
   */
  lemma DailyForecastFromFirstEntries(items: seq<ForecastItem>, cal: Calendar, m: nat)
    requires DailyForecast(items, cal).Some? && m < |DailyForecast(items, cal).value|
    ensures var j := Days(items, cal)[m];
      && j < |items| && |items[j].weather| > 0
      && DailyForecast(items, cal).value[m] == Summarise(items[j], cal)
      && (forall k :: 0 <= k < j ==> Key(items, cal, k) != Key(items, cal, j))
      && (forall m' :: m < m' < |Days(items, cal)| ==> j < Days(items, cal)[m'])
  {
    var j := Days(items, cal)[m];
    PicksOrdered(items, cal, |items|);
    assert Ordered(Days(items, cal));
    forall k | 0 <= k < j ensures Key(items, cal, k) != Key(items, cal, j) {
      PicksFirstOfDay(items, cal, |items|, m, k);
    }
  }
}
