# Weather dashboard: a verified model of its lookup logic

This project models the sequential logic of the `WeatherDashboard` page of a small browser
weather dashboard. The page looks up current conditions and a five-day forecast for a place
name or for the device position, and it keeps a list of recent searches. Four pieces of its
logic are modelled and proved:

- **Recent searches** (`RecentSearches`). `saveRecentSearch` puts the searched city first,
  drops its earlier copies and keeps five entries. The model proves the length cap, that the
  city appears exactly once, that the list stays repeat-free, order preservation,
  move-to-front, eviction of the oldest entry, and idempotence.
- **Daily forecast** (`Forecast`). The 3-hour forecast entries are walked in order. The first
  entry of each new calendar day is summarised, and walking stops adding once five days are
  held. `AggregateDaily` is that loop, with its `processedDays` set and output sequence. It is
  proved equal to the specification `DailyForecast`, which is built on `Picks`, the positions
  of the summarised entries. The lemmas cover:
  - at most five days, with pairwise distinct day keys;
  - each day is summarised from its first entry;
  - days appear in first-occurrence order and none is skipped;
  - entries after the fifth day change nothing.
- **Condition icons** (`WeatherIcons`). `getWeatherIcon` and `getSmallWeatherIcon` switch on
  the lower-cased `main` label. Unrecognised labels fall back to sun or cloud, according to
  the `d` day marker in the icon code.
- **Lookups** (`Lookup`, `Dashboard`). A lookup is one atomic step whose HTTP outcome is a
  `Response` value. `Lookup` gives each operation as a function from the old displayed state
  to the new one. The class `Dashboard.WeatherDashboard` has the four state fields that
  lookups change (`recentSearches`, `currentWeather`, `forecast`, `loading`), and each of its methods is proved to change them exactly as that function says.
  The proved rules:
  - a blank query is a no-op;
  - a failure changes no display field;
  - a success replaces both displays;
  - `loading` ends false;
  - only the place-name path records a search.

  `Lookup.RunKeepsConsistent` proves that any sequence of user actions keeps the recent list
  at most five entries long and free of repeats, keeps the forecast at most five days long,
  and leaves `loading` false between actions.

  The search form's submit handler (`handleSearch`) and the recent-search buttons both call
  `fetchWeather`, with the typed text or the stored entry. In the model both are the `Search`
  action.

Two parts of the environment are parameters: the outcome of a lookup's requests is a
`Lookup.Response` value, and the browser's calendar is a `Calendar` value:
`toDateString` as `dayKey` and the short `toLocaleDateString` as `dayLabel`, both functions
of the timestamp. `Math.round` is modelled exactly on real numbers as `(x + 0.5).Floor`.

Five facts about the code shape the model:
- Refresh re-runs `fetchWeather(currentWeather.name)`, the name the provider returned. It
  does not re-run the last query typed. After a position lookup this is the provider's place
  name.
- The query is recorded as typed. Only the blank check trims it, so `" Paris"` and `"Paris"`
  are different entries.
- The list loaded from local storage is not checked. `saveRecentSearch` keeps the list
  repeat-free only when the loaded list was (`RecentSearches.SavePreservesValid`).
- A lookup is not always all-or-nothing in the code; see Findings. The model uses the
  corrected, all-or-nothing commit.
- The start-up fallback to 'New York' does not keep the stored list when it succeeds; see
  Findings. The class models the corrected start-up: the constructor loads the list, then
  `FetchWeather` looks up `Lookup.FallbackCity`, as `Lookup.StartupFallback` says.

## Model

| member | source | states |
|---|---|---|
| RecentSearches.SaveRecentSearch | src/pages/WeatherDashboard.tsx:51-55 | the new list has 1 to 5 entries, starts with the city, holds it exactly once, and its tail is a prefix of the old list with the city removed, as long as that allows |
| RecentSearches.Without | src/pages/WeatherDashboard.tsx:52 | the `filter` that drops the city: the city no longer occurs and the list is no longer than before |
| RecentSearches.WithoutMultiset | src/pages/WeatherDashboard.tsx:52 | the filter removes every copy of the city and keeps every other entry with its multiplicity |
| RecentSearches.WithoutDistinctAt | src/pages/WeatherDashboard.tsx:52 | in a repeat-free list, filtering out the entry at position i leaves the entries before and after it, in order |
| RecentSearches.WithoutConcat | src/pages/WeatherDashboard.tsx:52 | the filter works entry by entry, so the kept entries keep their relative order |
| RecentSearches.SavePreservesValid | src/pages/WeatherDashboard.tsx:52 | a repeat-free list stays repeat-free and at most 5 long after a search |
| RecentSearches.SaveIdempotent | src/pages/WeatherDashboard.tsx:52 | searching the same city twice in a row gives the same list as searching it once |
| RecentSearches.SaveMovesToFront | src/pages/WeatherDashboard.tsx:52 | re-searching a listed city moves it to the front; the others keep their order and none is evicted |
| RecentSearches.SaveNewEvictsOldest | src/pages/WeatherDashboard.tsx:52 | a new city goes in front of the old list, and on a full list the oldest entry is dropped |
| RecentSearches.ParisTokyoParis | src/pages/WeatherDashboard.tsx:52 | searching Paris, Tokyo, Paris from an empty list gives ["Paris", "Tokyo"] |
| WeatherIcons.ToLower | src/pages/WeatherDashboard.tsx:213 | `toLowerCase` keeps the length and lowers each character in place (ASCII letters only) |
| WeatherIcons.Classify | src/pages/WeatherDashboard.tsx:210-226 | rain/drizzle give CloudRain and snow gives CloudSnow, both exactly; sun for clear or an unrecognised label with the day marker; cloud for clouds or an unrecognised label without it |
| WeatherIcons.GetWeatherIcon | src/pages/WeatherDashboard.tsx:210-226 | the card icon is the large icon of the kind `Classify` gives (whose four if-and-only-if clauses fix it) |
| WeatherIcons.GetSmallWeatherIcon | src/pages/WeatherDashboard.tsx:228-244 | the forecast-row icon is the small icon of the kind `Classify` gives |
| WeatherIcons.IconVariantsAgree | src/pages/WeatherDashboard.tsx:210-244 | both icon functions choose the same component and differ only in size |
| WeatherIcons.ClassifyIgnoresCase | src/pages/WeatherDashboard.tsx:213 | a label and its lower-cased form classify alike |
| WeatherIcons.DayMarkerOnlyForUnrecognised | src/pages/WeatherDashboard.tsx:211-225 | a recognised label ignores the icon code; an unrecognised one gives Sun exactly when the code contains 'd', otherwise Cloud |
| WeatherIcons.ProviderLabels | src/pages/WeatherDashboard.tsx:213-224 | the capitalised provider labels Clear, Clouds, Rain, Drizzle and Snow map to their icons; Mist follows the day marker |
| Payloads.Round | src/pages/WeatherDashboard.tsx:92 | `Math.round` gives an integer within half a unit of its argument, half-way cases rounded up |
| Payloads.PressureInHg | src/pages/WeatherDashboard.tsx:97 | the displayed pressure is the integer within half a unit of the hPa value times 0.02953 |
| Payloads.VisibilityMiles | src/pages/WeatherDashboard.tsx:98 | the displayed visibility is the integer within half a unit of the metres divided by 1609.34 |
| Payloads.RoundUnique | src/pages/WeatherDashboard.tsx:92 | that integer is unique, so the half-unit bound fully specifies rounding |
| Payloads.ConversionExamples | src/pages/WeatherDashboard.tsx:97-98 | 1013 hPa displays as 30 inHg and 10000 m as 6 miles |
| Payloads.NormalizeCurrent | src/pages/WeatherDashboard.tsx:89-101 | the record exists exactly when the payload has a weather descriptor; name, country and humidity are copied; description, icon and main come from the first descriptor; temperatures, wind, pressure (in inHg) and visibility (in miles) are each within half a unit |
| Forecast.Key | src/pages/WeatherDashboard.tsx:108-109 | the day key of an entry is the calendar's `toDateString` of its timestamp |
| Forecast.Summarise | src/pages/WeatherDashboard.tsx:113-121 | the pushed day: its label is the calendar's short date, its minimum and maximum are within half a unit of the entry's, and description, icon and main are those of the first weather descriptor |
| Forecast.KeysOfContains | src/pages/WeatherDashboard.tsx:105-112 | every taken entry's day is in `processedDays` |
| Forecast.Picks | src/pages/WeatherDashboard.tsx:107-113 | at most 5 entries are taken, all from the part of the list walked so far |
| Forecast.PicksOrdered | src/pages/WeatherDashboard.tsx:107-113 | the taken entries are in list order |
| Forecast.PicksDistinctDays | src/pages/WeatherDashboard.tsx:111-112 | the taken entries fall on pairwise distinct days |
| Forecast.PicksPrefix | src/pages/WeatherDashboard.tsx:107-113 | walking further only appends to what was taken |
| Forecast.PicksComplete | src/pages/WeatherDashboard.tsx:107-113 | no day is skipped: below 5 days every day seen is taken, and every entry before the fifth taken one has its day taken |
| Forecast.PicksFirstOfDay | src/pages/WeatherDashboard.tsx:111-122 | each taken entry is the first entry of its day; later entries of that day are ignored |
| Forecast.PicksSaturated | src/pages/WeatherDashboard.tsx:111 | once 5 days are held, further entries take nothing |
| Forecast.PicksExtend | src/pages/WeatherDashboard.tsx:107-113 | what is taken from a prefix does not depend on the entries after it |
| Forecast.DailyForecast | src/pages/WeatherDashboard.tsx:104-124 | a successful forecast has one day per taken entry and at most 5 days |
| Forecast.AggregateDaily | src/pages/WeatherDashboard.tsx:104-124 | the loop over the entries, with its day set and output list, computes exactly `DailyForecast`, including its failure on a taken entry without a weather descriptor |
| Forecast.TakenUndescribedFails | src/pages/WeatherDashboard.tsx:119-121 | a taken entry without a weather descriptor makes the forecast fail |
| Forecast.FullForecastIgnoresTail | src/pages/WeatherDashboard.tsx:107-124 | entries after a list that already spans 5 days change neither the taken entries nor the forecast |
| Forecast.FirstEntryDecidesDay | src/pages/WeatherDashboard.tsx:111-122 | of two entries of one day, the forecast is the summary of the first alone |
| Forecast.FirstEntryDecidesDayExample | src/pages/WeatherDashboard.tsx:116-117 | a day read at 58/71 and later at 55/75 is shown as 58/71 |
| Forecast.DailyForecastFromFirstEntries | src/pages/WeatherDashboard.tsx:104-124 | every displayed day is the summary of the first entry of its day, and days appear in order of first occurrence |
| Lookup.IsJsWhitespace | src/pages/WeatherDashboard.tsx:139 | the characters `trim()` removes: the ECMAScript WhiteSpace and LineTerminator characters |
| Lookup.IsBlank | src/pages/WeatherDashboard.tsx:139 | the query is empty once trimmed: every character is one `trim()` removes |
| Lookup.Normalize | src/pages/WeatherDashboard.tsx:77-124 | both payloads reshaped, present exactly when both requests succeeded, the current payload has a descriptor and the forecast aggregates; then the pair of the two normalised payloads |
| Lookup.Commit | src/pages/WeatherDashboard.tsx:148-202 | corrected commit: `loading` ends false; a failed or malformed response changes only `loading`; a well-formed one replaces the conditions and the forecast with their normalised forms and, for a named search, records it by `saveRecentSearch`; without a search the recent list is unchanged |
| Lookup.FetchWeather | src/pages/WeatherDashboard.tsx:138-203 | a blank query changes nothing; any other ends with `loading` false; the recent list is unchanged or updated by `saveRecentSearch` with the query |
| Lookup.FetchWeatherByCoords | src/pages/WeatherDashboard.tsx:74-136 | ends with `loading` false and never changes the recent list; a failed or malformed response changes only `loading`; a well-formed one replaces the conditions and the forecast |
| Lookup.Refresh | src/pages/WeatherDashboard.tsx:280 | with no place displayed nothing happens; otherwise the result is `FetchWeather` of the displayed place's name |
| Lookup.SuccessfulSearchCommitsAll | src/pages/WeatherDashboard.tsx:155-193 | when both payloads are well formed, a named lookup replaces the conditions and forecast with their normalised forms and puts the query first in the recent list |
| Lookup.SuccessfulPositionLookupCommitsAll | src/pages/WeatherDashboard.tsx:89-127 | when both payloads are well formed, a position lookup replaces the conditions and forecast with their normalised forms, keeps the recent list and ends not loading |
| Lookup.FailedLookupKeepsDisplay | src/pages/WeatherDashboard.tsx:148-150 | a failed lookup, by name or by position, changes none of conditions, forecast and recent list |
| Lookup.Step | src/pages/WeatherDashboard.tsx:205-340 | a search (form submit at 205-208, recent-search button at 335, or the location buttons' fallback at 66/70), a position lookup (273, 319) or Refresh (280); each either does nothing or ends with `loading` false, and a position lookup never changes the recent list |
| Lookup.Run | src/pages/WeatherDashboard.tsx:262-340 | the user's actions in order; from a state that is not loading, the result is not loading |
| Lookup.StepKeepsConsistent | src/pages/WeatherDashboard.tsx:138-203 | every user action keeps the list bounded and repeat-free, the forecast at most 5 days, and `loading` false |
| Lookup.RunKeepsConsistent | src/pages/WeatherDashboard.tsx:74-203 | any sequence of searches, position lookups and refreshes keeps those invariants |
| Lookup.CommitAsWritten | src/pages/WeatherDashboard.tsx:155-192 | the commit in the source's order (conditions set before the forecast loop); `loading` ends false |
| Lookup.AsWrittenAgreesOnWellFormed | src/pages/WeatherDashboard.tsx:155-192 | the source's order and the corrected one agree unless the conditions are well formed and the forecast is not |
| Lookup.Mounted | src/pages/WeatherDashboard.tsx:34-45 | the state after mounting holds the stored list, no conditions, no forecast, and is not loading |
| Lookup.StartupFallbackAsWritten | src/pages/WeatherDashboard.tsx:40-71 | the start-up fallback as the code runs it, with the stale empty list and the source's commit order: `loading` ends false; a failed request or a current payload without descriptor leaves the mounted state; a well-formed current payload with a malformed forecast shows the new conditions beside the empty forecast; full success shows both payloads and leaves the recent list as just the fallback city |
| Lookup.StartupFallback | src/pages/WeatherDashboard.tsx:40-71 | the corrected start-up fallback, an ordinary `fetchWeather` of the fallback city from the mounted state: `loading` ends false and a failure leaves the mounted state |
| Lookup.StartupFallbackKeepsHistory | src/pages/WeatherDashboard.tsx:51-54 | after a successful corrected fallback, for any stored list without the fallback city (repeats and over-long lists included), the recent list is the fallback city followed by the stored list, cut to five entries |
| Lookup.StartupFallbackWipesHistory | src/pages/WeatherDashboard.tsx:40-71 | with "Paris" and "Tokyo" stored and a successful fallback, the code's order leaves ["New York"] while the corrected start-up gives ["New York", "Paris", "Tokyo"] |
| Lookup.AsWrittenCommitsPartially | src/pages/WeatherDashboard.tsx:155-185 | a concrete lookup where the source's order changes the conditions but not the forecast or recent list, while the corrected commit changes nothing |
| Dashboard.WeatherDashboard.constructor | src/pages/WeatherDashboard.tsx:34-45 | starts with the stored list (or an empty one), nothing displayed, not loading |
| Dashboard.WeatherDashboard.SaveRecentSearch | src/pages/WeatherDashboard.tsx:51-55 | the list becomes `SaveRecentSearch` of the old list; nothing else changes |
| Dashboard.WeatherDashboard.Complete | src/pages/WeatherDashboard.tsx:148-202 | after the requests, the state becomes `Lookup.Commit` of the old state: `loading` false; on a failed or malformed response conditions, forecast and list are unchanged; on a well-formed one the conditions and forecast are the normalised payloads and the list is `saveRecentSearch` of the old list for a named search, unchanged otherwise |
| Dashboard.WeatherDashboard.FetchWeather | src/pages/WeatherDashboard.tsx:138-203 | the state becomes `Lookup.FetchWeather` of the old state |
| Dashboard.WeatherDashboard.FetchWeatherByCoords | src/pages/WeatherDashboard.tsx:74-136 | the state becomes `Lookup.FetchWeatherByCoords` of the old state |
| Dashboard.WeatherDashboard.Refresh | src/pages/WeatherDashboard.tsx:280 | the state becomes `Lookup.Refresh` of the old state |

## Left out

- The HTTP requests, `Promise.all` and JSON decoding are left out. A lookup's outcome is the
  `Lookup.Response` argument. The only malformed payloads modelled are empty `weather`
  arrays. Other missing fields are not modelled.
- Concurrency between lookups is not modelled. Each lookup is one atomic step, so the race
  between overlapping lookups is not captured. `loading` is true only inside a step, and
  Refresh being disabled while loading does not arise.
- The geolocation request is left out; it is a browser callback. When it gives a position,
  its effect is `FetchWeatherByCoords` (the `UseLocation` action). When it fails or is
  missing, its effect is a lookup of 'New York'. From the two "Use current location"
  buttons (lines 273 and 319) that is an ordinary `fetchWeather` on the current list, the
  `Search` action with `Lookup.FallbackCity`. Only the call from the mount effect (line 48)
  runs the first render's functions; it is modelled separately as
  `Lookup.StartupFallbackAsWritten` (see Findings).
- Reading and writing local storage is left out. The constructor receives the loaded list
  already parsed. The write in `saveRecentSearch` is not modelled; only the list value is.
- The search box's text (`searchQuery`, the component's fifth state field) is not modelled.
  The `Search` action carries the submitted text instead.
- Toast notifications, the JSX rendering, CSS classes and colours, and `vite.config.ts` are
  not modelled.
- `Date`, `toDateString` and `toLocaleDateString` are not modelled. They are the `Calendar`
  parameter and depend on time zone and locale.
- Payloads.Round: real arithmetic is exact, so binary floating-point error in the products
  and quotients before rounding is not modelled.
- WeatherIcons.ToLower: only ASCII letters are lowered. For matching the five labels this is
  exact. A few non-ASCII characters do lower-case to ASCII letters: the Kelvin sign gives 'k',
  and U+0130 gives 'i' followed by a combining dot. No label contains 'k'. The combining dot
  after the 'i' keeps the result from matching a label, so the label match is the same.
- The searched city is not interpolated into the request URL, because the URL is part of
  the left-out HTTP layer.

## Findings

| source | as written | input that shows it | evidently intended | confidence | as-written member | corrected member |
|---|---|---|---|---|---|---|
| src/pages/WeatherDashboard.tsx:155-190 | `setCurrentWeather` runs before the forecast loop reads `item.weather[0]`. A forecast entry that is summarised but has an empty `weather` array throws after the conditions were set. The new conditions then show beside the old forecast, and no recent search is recorded. The same holds at lines 89-124. | both responses ok; a current payload with one descriptor; a forecast list whose first entry has `weather: []` | a lookup replaces the conditions and the forecast together or neither | medium, not executed | Lookup.AsWrittenCommitsPartially | Lookup.Commit |
| src/pages/WeatherDashboard.tsx:40-71 | The mount effect calls the first render's `getCurrentLocationWeather`. When geolocation fails or is missing, it calls that render's `fetchWeather('New York')`. After a successful lookup that call reaches that render's `saveRecentSearch`, which filters the empty initial `recentSearches`. The list loaded from storage at line 44 is then replaced, in state and in storage, by `["New York"]`. | stored recent searches `["Paris","Tokyo"]`; geolocation denied; both responses ok and well formed | the fallback search is added in front of the stored history | medium, not executed | Lookup.StartupFallbackWipesHistory | Lookup.StartupFallback |
