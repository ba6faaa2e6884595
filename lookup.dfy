/**
 * One lookup (`fetchWeather` by place name, `fetchWeatherByCoords` by position) as a
 * transition of the dashboard's displayed state. The two HTTP requests are one atomic
 * step whose outcome is the `Response` argument.
 */
module Lookup {
  import opened Wrappers
  import opened Payloads
  import opened Forecast
  import RecentSearches

  /**
   * What the two requests of one lookup yielded: `Failed` when either request failed or
   * answered with a non-success status, otherwise both payloads.
   */
  datatype Response = Failed | Received(current: RawCurrent, forecast: seq<ForecastItem>)

  /** The dashboard's state that lookups touch. */
  datatype View = View(
    recentSearches: seq<string>,
    currentWeather: Option<WeatherData>,
    forecast: seq<ForecastDay>,
    loading: bool)

  /** The characters `String.prototype.trim` removes: white space and line terminators. */
  predicate IsJsWhitespace(c: char) {
    || c == '\t' || c == '\n' || c == '\U{000B}' || c == '\U{000C}' || c == '\r' || c == ' '
    || c == '\U{00A0}' || c == '\U{1680}' || ('\U{2000}' <= c <= '\U{200A}')
    || c == '\U{2028}' || c == '\U{2029}' || c == '\U{202F}' || c == '\U{205F}'
    || c == '\U{3000}' || c == '\U{FEFF}'
  }

  /** The query is empty once trimmed. */
  predicate IsBlank(s: string) {
    forall i :: 0 <= i < |s| ==> IsJsWhitespace(s[i])
  }

  /** Both payloads reshaped for display, or None when the lookup fails. */
  function Normalize(resp: Response, cal: Calendar): (r: Option<(WeatherData, seq<ForecastDay>)>)
    ensures r.Some? <==> resp.Received? && NormalizeCurrent(resp.current).Some? && DailyForecast(resp.forecast, cal).Some?
    ensures r.Some? ==> r.value == (NormalizeCurrent(resp.current).value, DailyForecast(resp.forecast, cal).value)
  {
    match resp
    case Failed => None
    case Received(current, items) =>
      match (NormalizeCurrent(current), DailyForecast(items, cal))
      case (Some(w), Some(days)) => Some((w, days))
      case _ => None
  }

  /**
   * The end of a lookup whose request was issued: on success the current conditions and
   * the forecast are both replaced and a place-name search is recorded; on failure neither
   * changes. Either way `loading` ends false.
   */
  function Commit(v: View, resp: Response, cal: Calendar, search: Option<string>): (r: View)
    ensures !r.loading
    ensures Normalize(resp, cal).None? ==> r == v.(loading := false)
    ensures Normalize(resp, cal).Some? ==>
              && r.currentWeather == Some(Normalize(resp, cal).value.0)
              && r.forecast == Normalize(resp, cal).value.1
              && (search.Some? ==> r.recentSearches == RecentSearches.SaveRecentSearch(v.recentSearches, search.value))
    ensures search.None? ==> r.recentSearches == v.recentSearches
  {
    match Normalize(resp, cal)
    case None => v.(loading := false)
    case Some((w, days)) =>
      var recent := if search.Some? then RecentSearches.SaveRecentSearch(v.recentSearches, search.value)
                    else v.recentSearches;
      View(recent, Some(w), days, false)
  }

  /** `fetchWeather`: a blank query is ignored, any other is looked up and recorded on success. */
  function FetchWeather(v: View, city: string, resp: Response, cal: Calendar): (r: View)
    ensures IsBlank(city) ==> r == v
    ensures !IsBlank(city) ==> !r.loading
    ensures r.recentSearches == v.recentSearches
         || r.recentSearches == RecentSearches.SaveRecentSearch(v.recentSearches, city)
  {
    if IsBlank(city) then v else Commit(v, resp, cal, Some(city))
  }

  /** `fetchWeatherByCoords`: looked up, never recorded as a recent search. */
  function FetchWeatherByCoords(v: View, resp: Response, cal: Calendar): (r: View)
    ensures !r.loading
    ensures r.recentSearches == v.recentSearches
    ensures Normalize(resp, cal).None? ==> r == v.(loading := false)
    ensures Normalize(resp, cal).Some? ==>
              r.currentWeather == Some(Normalize(resp, cal).value.0) && r.forecast == Normalize(resp, cal).value.1
  {
    Commit(v, resp, cal, None)
  }

  /** The Refresh button: looks up the displayed place's name again, if a place is displayed. */
  function Refresh(v: View, resp: Response, cal: Calendar): (r: View)
    ensures v.currentWeather.None? ==> r == v
    ensures v.currentWeather.Some? ==> r == FetchWeather(v, v.currentWeather.value.name, resp, cal)
  {
    if v.currentWeather.Some? then FetchWeather(v, v.currentWeather.value.name, resp, cal) else v
  }

  /** A successful place-name lookup replaces both displays and moves the query to the front of the list. */
  lemma SuccessfulSearchCommitsAll(v: View, city: string, resp: Response, cal: Calendar)
    requires !IsBlank(city) && resp.Received?
    requires NormalizeCurrent(resp.current).Some? && DailyForecast(resp.forecast, cal).Some?
    ensures var r := FetchWeather(v, city, resp, cal);
      && r.currentWeather == NormalizeCurrent(resp.current)
      && r.forecast == DailyForecast(resp.forecast, cal).value
      && r.recentSearches == RecentSearches.SaveRecentSearch(v.recentSearches, city)
      && r.recentSearches[0] == city
      && !r.loading
  {
  }

  /** A successful position lookup replaces both displays and leaves the recent list alone. */
  lemma SuccessfulPositionLookupCommitsAll(v: View, resp: Response, cal: Calendar)
    requires resp.Received?
    requires NormalizeCurrent(resp.current).Some? && DailyForecast(resp.forecast, cal).Some?
    ensures var r := FetchWeatherByCoords(v, resp, cal);
      && r.currentWeather == NormalizeCurrent(resp.current)
      && r.forecast == DailyForecast(resp.forecast, cal).value
      && r.recentSearches == v.recentSearches
      && !r.loading
  {
  }

  /** A lookup that fails leaves the current conditions, the forecast and the recent searches as they were. */
  lemma FailedLookupKeepsDisplay(v: View, city: string, resp: Response, cal: Calendar)
    requires Normalize(resp, cal).None?
    ensures var r := FetchWeather(v, city, resp, cal);
      r.currentWeather == v.currentWeather && r.forecast == v.forecast && r.recentSearches == v.recentSearches
    ensures var r := FetchWeatherByCoords(v, resp, cal);
      r.currentWeather == v.currentWeather && r.forecast == v.forecast && r.recentSearches == v.recentSearches
  {
  }

  /** What the user can do: search a place, use the device position, press Refresh. */
  datatype Action =
    | Search(query: string, response: Response)
    | UseLocation(response: Response)
    | RefreshDisplayed(response: Response)

  /** One user action: a lookup that either does nothing or ends with `loading` false. */
  function Step(v: View, a: Action, cal: Calendar): (r: View)
    ensures r == v || !r.loading
    ensures a.UseLocation? ==> r.recentSearches == v.recentSearches
  {
    match a
    case Search(query, resp) => FetchWeather(v, query, resp, cal)
    case UseLocation(resp) => FetchWeatherByCoords(v, resp, cal)
    case RefreshDisplayed(resp) => Refresh(v, resp, cal)
  }

  /** The actions in order; from a state that is not loading, none is left loading. */
  function Run(v: View, actions: seq<Action>, cal: Calendar): (r: View)
    ensures !v.loading ==> !r.loading
    decreases |actions|
  {
    if actions == [] then v else Run(Step(v, actions[0], cal), actions[1..], cal)
  }

  /** What holds between lookups: a bounded repeat-free list, at most five days, not loading. */
  predicate Consistent(v: View) {
    RecentSearches.ValidRecent(v.recentSearches) && |v.forecast| <= MaxDays && !v.loading
  }

  lemma StepKeepsConsistent(v: View, a: Action, cal: Calendar)
    requires Consistent(v)
    ensures Consistent(Step(v, a, cal))
  {
    var query := match a
      case Search(q, _) => q
      case RefreshDisplayed(_) => if v.currentWeather.Some? then v.currentWeather.value.name else ""
      case UseLocation(_) => "";
    RecentSearches.SavePreservesValid(v.recentSearches, query);
  }

  /** However many lookups run, the list stays bounded and repeat-free and `loading` never sticks. */
  lemma {:induction false} RunKeepsConsistent(v: View, actions: seq<Action>, cal: Calendar)
    requires Consistent(v)
    ensures Consistent(Run(v, actions, cal))
    decreases |actions|
  {
    if actions != [] {
      StepKeepsConsistent(v, actions[0], cal);
      RunKeepsConsistent(Step(v, actions[0], cal), actions[1..], cal);
    }
  }

  /**
   * The commit as the source orders it: the current conditions are set before the forecast
   * is reshaped, so a forecast that throws leaves the new conditions beside the old forecast.
   */
  function CommitAsWritten(v: View, resp: Response, cal: Calendar, search: Option<string>): (r: View)
    ensures !r.loading
  {
    match resp
    case Failed => v.(loading := false)
    case Received(current, items) =>
      match NormalizeCurrent(current)
      case None => v.(loading := false)
      case Some(w) =>
        match DailyForecast(items, cal)
        case None => v.(currentWeather := Some(w), loading := false)
        case Some(days) =>
          var recent := if search.Some? then RecentSearches.SaveRecentSearch(v.recentSearches, search.value)
                        else v.recentSearches;
          View(recent, Some(w), days, false)
  }

  /** The two orderings differ only when the forecast, and not the current conditions, is malformed. */
  lemma AsWrittenAgreesOnWellFormed(v: View, resp: Response, cal: Calendar, search: Option<string>)
    requires resp.Received? && NormalizeCurrent(resp.current).Some? ==> DailyForecast(resp.forecast, cal).Some?
    ensures CommitAsWritten(v, resp, cal, search) == Commit(v, resp, cal, search)
  {
  }

  /**
   * Both requests succeed, the current payload is well formed, and the forecast's first
   * entry has an empty `weather` array: the current conditions change, the forecast does not.
   */
  lemma AsWrittenCommitsPartially(cal: Calendar)
    ensures
      var v := View([], None, [], false);
      var raw := RawCurrent("Paris", "FR", 60.0, 58.0, 70.0, 8.0, 1013.0, 10000.0,
                            [Descriptor("Clear", "clear sky", "01d")]);
      var resp := Received(raw, [ForecastItem(1748833200, 55.0, 65.0, [])]);
      var r := CommitAsWritten(v, resp, cal, Some("Paris"));
      && r.currentWeather != v.currentWeather
      && r.forecast == v.forecast
      && r.recentSearches == v.recentSearches
      && Commit(v, resp, cal, Some("Paris")) == v
  {
    var items := [ForecastItem(1748833200, 55.0, 65.0, [])];
    assert Picks(items, cal, 1) == Picks(items, cal, 0) + [0];
    TakenUndescribedFails(items, cal, 0);
  }

  /** The state right after mounting: the stored list loaded, nothing displayed, not loading. */
  function Mounted(saved: seq<string>): (v: View)
    ensures v.recentSearches == saved && v.currentWeather.None? && v.forecast == [] && !v.loading
  {
    View(saved, None, [], false)
  }

  /** The place looked up when the device position is unavailable. */
  const FallbackCity: string := "New York"

  /**
   * The start-up fallback lookup as the source runs it: the mount effect calls the first
   * render's `fetchWeather`, whose `saveRecentSearch` still reads that render's empty list,
   * so a success records the fallback city over the list loaded from storage. The commit
   * keeps the source's order too, so a malformed forecast still shows the new conditions.
   */
  function StartupFallbackAsWritten(saved: seq<string>, resp: Response, cal: Calendar): (r: View)
    ensures !r.loading
    ensures Normalize(resp, cal).Some? ==>
              && r.recentSearches == [FallbackCity]
              && r.currentWeather == Some(Normalize(resp, cal).value.0)
              && r.forecast == Normalize(resp, cal).value.1
    ensures resp.Failed? || NormalizeCurrent(resp.current).None? ==> r == Mounted(saved)
    ensures resp.Received? && NormalizeCurrent(resp.current).Some? && DailyForecast(resp.forecast, cal).None? ==>
              r == Mounted(saved).(currentWeather := NormalizeCurrent(resp.current))
  {
    var r := CommitAsWritten(Mounted(saved), resp, cal, None);
    if Normalize(resp, cal).Some? then r.(recentSearches := RecentSearches.SaveRecentSearch([], FallbackCity)) else r
  }

  /** The corrected start-up fallback: an ordinary lookup of the fallback city from the mounted state. */
  function StartupFallback(saved: seq<string>, resp: Response, cal: Calendar): (r: View)
    ensures !r.loading
    ensures Normalize(resp, cal).None? ==> r == Mounted(saved)
  {
    FetchWeather(Mounted(saved), FallbackCity, resp, cal)
  }

  /**
   * A successful fallback keeps the stored history: the fallback city goes first and every
   * stored place that fits behind it stays, in order.
   */
  lemma StartupFallbackKeepsHistory(saved: seq<string>, resp: Response, cal: Calendar)
    requires FallbackCity !in saved
    requires Normalize(resp, cal).Some?
    ensures var r := StartupFallback(saved, resp, cal);
      r.recentSearches == [FallbackCity] + saved[..if |saved| < RecentSearches.MaxRecent then |saved| else RecentSearches.MaxRecent - 1]
  {
    assert !IsBlank(FallbackCity) by { assert !IsJsWhitespace(FallbackCity[0]); }
    RecentSearches.SaveNewEvictsOldest(saved, FallbackCity);
  }

  /**
   * Geolocation fails at start-up with "Paris" and "Tokyo" stored and the lookup succeeds:
   * the source's stale closure leaves only "New York", the corrected lookup keeps both.
   */
  lemma StartupFallbackWipesHistory(cal: Calendar)
    ensures
      var raw := RawCurrent("New York", "US", 60.0, 58.0, 70.0, 8.0, 1013.0, 10000.0,
                            [Descriptor("Clouds", "few clouds", "02d")]);
      var resp := Received(raw, []);
      && StartupFallbackAsWritten(["Paris", "Tokyo"], resp, cal).recentSearches == ["New York"]
      && StartupFallback(["Paris", "Tokyo"], resp, cal).recentSearches == ["New York", "Paris", "Tokyo"]
  {
    var raw := RawCurrent("New York", "US", 60.0, 58.0, 70.0, 8.0, 1013.0, 10000.0,
                          [Descriptor("Clouds", "few clouds", "02d")]);
    assert Picks([], cal, 0) == [];
    assert Normalize(Received(raw, []), cal).Some?;
    StartupFallbackKeepsHistory(["Paris", "Tokyo"], Received(raw, []), cal);
  }
}
