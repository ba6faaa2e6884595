/**
 * The `WeatherDashboard` component's state and the operations that change it, one lookup
 * being one atomic step. Each method is proved to move the state exactly as the matching
 * `Lookup` function says.
 */
module Dashboard {
  import opened Wrappers
  import opened Payloads
  import opened Forecast
  import RecentSearches
  import Lookup

  class WeatherDashboard {
    var recentSearches: seq<string>
    var currentWeather: Option<WeatherData>
    var forecast: seq<ForecastDay>
    var loading: bool
    /** The browser's time zone and locale, fixed for the page's lifetime. */
    const calendar: Calendar

    function View(): Lookup.View
      reads this
    {
      Lookup.View(recentSearches, currentWeather, forecast, loading)
    }

    /** The initial state; `saved` is the list found in local storage, if any. */
    constructor (saved: Option<seq<string>>, cal: Calendar)
      ensures View() == Lookup.View(if saved.Some? then saved.value else [], None, [], false)
      ensures calendar == cal
    {
      recentSearches := if saved.Some? then saved.value else [];
      currentWeather := None;
      forecast := [];
      loading := false;
      calendar := cal;
    }

    /** `saveRecentSearch`: the list is updated, nothing else. */
    method SaveRecentSearch(city: string)
      modifies this
      ensures recentSearches == RecentSearches.SaveRecentSearch(old(recentSearches), city)
      ensures currentWeather == old(currentWeather) && forecast == old(forecast) && loading == old(loading)
    {
      recentSearches := RecentSearches.SaveRecentSearch(recentSearches, city);
    }

    /** The part of both fetch functions after the requests: reshape both payloads, then commit both or neither. */
    method Complete(response: Lookup.Response, search: Option<string>)
      modifies this
      ensures View() == Lookup.Commit(old(View()), response, calendar, search)
      ensures !loading
      ensures Lookup.Normalize(response, calendar).None? ==>
                currentWeather == old(currentWeather) && forecast == old(forecast)
                && recentSearches == old(recentSearches)
      ensures Lookup.Normalize(response, calendar).Some? ==>
                && currentWeather == Some(Lookup.Normalize(response, calendar).value.0)
                && forecast == Lookup.Normalize(response, calendar).value.1
                && recentSearches == if search.Some? then RecentSearches.SaveRecentSearch(old(recentSearches), search.value)
                                     else old(recentSearches)
    {
      if response.Received? {
        var current := NormalizeCurrent(response.current);
        var days := AggregateDaily(response.forecast, calendar);
        if current.Some? && days.Some? {
          currentWeather := current;
          forecast := days.value;
          if search.Some? {
            SaveRecentSearch(search.value);
          }
        }
      }
      loading := false;
    }

    /** `fetchWeather`, the lookup by place name. */
    method FetchWeather(city: string, response: Lookup.Response)
      modifies this
      ensures View() == Lookup.FetchWeather(old(View()), city, response, calendar)
    {
      if Lookup.IsBlank(city) {
        return;
      }
      loading := true;
      Complete(response, Some(city));
    }

    /** `fetchWeatherByCoords`; the position only shapes the requests, so it is not a parameter. */
    method FetchWeatherByCoords(response: Lookup.Response)
      modifies this
      ensures View() == Lookup.FetchWeatherByCoords(old(View()), response, calendar)
    {
      loading := true;
      Complete(response, None);
    }

    /** The Refresh button's handler. */
    method Refresh(response: Lookup.Response)
      modifies this
      ensures View() == Lookup.Refresh(old(View()), response, calendar)
    {
      if currentWeather.Some? {
        FetchWeather(currentWeather.value.name, response);
      }
    }
  }
}
