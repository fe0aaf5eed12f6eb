# Weather widget: a Dafny model

This project models the logic of a single-page weather widget (`src/component/Weather.jsx`,
a React component). A user types a city. The component fetches the current weather and a
five-day, three-hourly forecast from the weather provider. It maps both responses to display
records and shows loading, error, data or a placeholder. A button toggles between metric and
imperial units, and every unit change searches again.

Layout:

- `wrappers.dfy`: `Option`, for JSON fields that may be absent.
- `view_model.dfy` (module `ViewModel`, pure): the icon-code table and its fallback to the
  clear icon; the forecast sampler that keeps every item whose index is divisible by 8; the date
  split of `dt_txt`; the mapping of provider readings to the displayed records, with floored
  temperatures.
- `search_spec.dfy` (module `SearchSpec`, pure): the component state `ViewState` and the
  abstract fetch outcome `FetchOutcome`. `Begin`, `Settle` and `SearchResult` give the state that
  `search` produces. Also here: `Toggled`, the effect's city fallback `RefetchCity`, the
  render priority `Render` and the unit captions, with lemmas relating them.
- `weather.dfy` (module `WeatherComponent`): the class `Weather`. Its fields are the five
  state hooks. `Search`, `ToggleUnit` and `RunUnitEffect` update them step by step and are proved
  against the functions of `SearchSpec`.

Behaviour the model makes explicit:

- The fetches become an input. `Thrown` stands for any exception from `fetch` or `json()`.
  `Responses` carries both ok flags and both parsed bodies.
- A body that lacks a container the code reads through is modelled with `None`: the
  current body's `weather`, `weather[0]`, `main` or `wind`; the forecast body's `list`; a null
  forecast item, or one without `dt_txt`, `main` or `weather[0]`. Reading through it throws a
  `TypeError` inside the `try`, so the error becomes `'Error in fetching weather data'`.
  A missing current reading throws before `weatherData` is set. A missing forecast `list`, or
  a malformed forecast item at a sampled index, throws after `weatherData` has been replaced.
  That state pairs the new reading with the old forecast (`MalformedForecastMixesData`). The
  error banner hides it (`RenderAfterSearch`). Items at unsampled indices are never read,
  because the filter runs before the map.
- When a response is not ok, the error text always comes from the current-weather body's
  `message`, never the forecast body's. An empty message counts as absent, because of `||`.
- The forecast date is the text before the first space of `dt_txt`, not a fixed number of
  characters.

## Model

| member | source | states |
|---|---|---|
| `ViewModel.IconFor` | src/component/Weather.jsx:73 | the table lookup with its fallback to `clear_icon`; it has no contract of its own, and IconPreimages, UnlistedCodesAreClear and DayAndNightAgree state its properties |
| `ViewModel.IconPreimages` | src/component/Weather.jsx:26-41 | for each icon, exactly which codes select it (both directions); clear covers 01d/01n and every unlisted code |
| `ViewModel.UnlistedCodesAreClear` | src/component/Weather.jsx:73 | thunderstorm (11d/11n) and mist (50d/50n) codes fall back to the clear icon |
| `ViewModel.DayAndNightAgree` | src/component/Weather.jsx:26-41 | for every prefix, the day code and the night code get the same icon |
| `ViewModel.EveryEighth` | src/component/Weather.jsx:90 | the filtered list has ceil(n/8) elements, and its k-th element is the input's element 8k, in order |
| `ViewModel.EveryEighthKeeps` | src/component/Weather.jsx:90 | an input element is kept if and only if its index is divisible by 8, and it then sits at position index/8 |
| `ViewModel.FortySlotsGiveFiveDays` | src/component/Weather.jsx:90 | forty entries give exactly those at indices 0, 8, 16, 24, 32 |
| `ViewModel.DatePart` | src/component/Weather.jsx:91 | the result is a prefix of the timestamp with no space, followed in the timestamp by a space or by its end |
| `ViewModel.DatePartOfTimestamp` | src/component/Weather.jsx:91 | a timestamp "date time" with a space-free date yields exactly the date |
| `ViewModel.ToCurrentWeather` | src/component/Weather.jsx:73-86 | temperature, min and max are the floors of the readings; humidity, wind, name and description pass through; the icon is looked up |
| `ViewModel.ToForecastDay` | src/component/Weather.jsx:91-94 | a day's date is a space-free prefix of `dt_txt`, ending at the first space of `dt_txt` or at its end; its temperature is floored, its icon is looked up |
| `ViewModel.SampleForecast` | src/component/Weather.jsx:90-95 | the mapping succeeds if and only if every sampled item is well formed; then it has ceil(n/8) days, day k mapped from item 8k |
| `ViewModel.ForecastDays` | src/component/Weather.jsx:90 | a missing `list` makes the mapping fail; otherwise the list is sampled and mapped |
| `SearchSpec.ProviderMessage` | src/component/Weather.jsx:69 | the error text is never empty: the body's non-empty message, or else the fallback text |
| `SearchSpec.Begin` | src/component/Weather.jsx:53-54 | at the awaits, loading is set and the error is cleared; the data and the unit are untouched |
| `SearchSpec.Settle` | src/component/Weather.jsx:55-111 | whatever the outcome, the search ends with loading false and the unit unchanged |
| `SearchSpec.SearchResult` | src/component/Weather.jsx:45-112 | `search(city)` as a function of the state; it has no contract of its own, and EmptyCityGuard through SearchIdempotent state its properties |
| `SearchSpec.EmptyCityGuard` | src/component/Weather.jsx:46-49 | only the exactly empty city is rejected without change; a blank city is searched; every other search ends not loading |
| `SearchSpec.ProviderErrorKeepsData` | src/component/Weather.jsx:68-71 | if either response is not ok, only the error (from the current-weather message) and loading change |
| `SearchSpec.ThrownKeepsData` | src/component/Weather.jsx:101-111 | a thrown exception sets the fixed transport error, ends loading and keeps both data fields |
| `SearchSpec.MalformedReadingKeepsData` | src/component/Weather.jsx:73-86 | ok responses whose current body lacks `weather[0]`, `main` or `wind` set only the transport error and loading false; both data fields are kept |
| `SearchSpec.SuccessReplacesBoth` | src/component/Weather.jsx:77-99 | a well-formed ok pair replaces the reading and the forecast, with no error and loading false |
| `SearchSpec.MalformedForecastMixesData` | src/component/Weather.jsx:77-99 | ok responses with an unmappable forecast store the new reading, keep the old forecast and set the transport error |
| `SearchSpec.ErrorIffFailure` | src/component/Weather.jsx:53-111 | after a non-empty search the error is empty if and only if the outcome fully succeeded |
| `SearchSpec.SearchIdempotent` | src/component/Weather.jsx:45-112 | repeating a search with the same city and outcome leaves the state as the first search left it |
| `SearchSpec.Toggled` | src/component/Weather.jsx:116-118 | the new unit is metric or imperial, and it is imperial exactly when the old one was metric |
| `SearchSpec.ToggleTwice` | src/component/Weather.jsx:116-118 | toggling twice restores the unit if and only if it was metric or imperial |
| `SearchSpec.RefetchCity` | src/component/Weather.jsx:122-124 | the effect's city is never empty: the input's non-empty value, or else Delhi |
| `SearchSpec.RefetchAlwaysFetches` | src/component/Weather.jsx:122-124 | the effect's search always passes the empty-city guard and runs the fetches |
| `SearchSpec.Render` | src/component/Weather.jsx:137-184 | exactly one mode is shown, by priority: loading, then a non-empty error, then the data, then the placeholder |
| `SearchSpec.RenderBeforeAndDuring` | src/component/Weather.jsx:18-22 | the initial state shows the placeholder; a search waiting on the network shows the loading text |
| `SearchSpec.RenderAfterSearch` | src/component/Weather.jsx:137-184 | after a non-empty search, loading is never shown and a failure shows its error; a data panel only shows a reading and a forecast from this search's responses |
| `SearchSpec.TemperatureLabel` | src/component/Weather.jsx:146 | the suffix is "C" exactly under metric, otherwise "F" |
| `SearchSpec.SpeedLabel` | src/component/Weather.jsx:162 | the suffix is "Km/h" exactly under metric, otherwise "Mph" |
| `SearchSpec.ToggleCaption` | src/component/Weather.jsx:134 | the caption offers °F exactly under metric |
| `SearchSpec.CaptionNamesToggledUnit` | src/component/Weather.jsx:133-135 | the button caption names the unit the toggle switches to; the temperature and speed labels agree |
| `WeatherComponent.Weather.constructor` | src/component/Weather.jsx:18-22 | starts with no reading, an empty forecast, metric, not loading and no error |
| `WeatherComponent.Weather.Search` | src/component/Weather.jsx:45-112 | the fields afterwards are `SearchResult` of the fields before; the unit is unchanged |
| `WeatherComponent.Weather.ToggleUnit` | src/component/Weather.jsx:116-118 | only the unit changes, to the toggled and different unit |
| `WeatherComponent.Weather.RunUnitEffect` | src/component/Weather.jsx:122-124 | on mount or unit change, the fields become the settled search of the input's city or Delhi, never a no-op |

## Left out

- Network plumbing: `fetch`, `response.json()`, the two URL templates and the `VITE_APP_ID` key
  (lines 59-66). The model replaces them with the `FetchOutcome` input. So it does not record which city and unit a
  request was sent with.
- The `alert` for an empty city (line 47). It is a browser side effect and changes no state.
- React mechanics: `useRef`, `useEffect` scheduling and state batching. Setters are plain field
  assignments. The states between the awaits are covered by `Begin` and `RenderBeforeAndDuring`. The
  model does not capture any render in the middle of a settle step.
- Overlapping searches, where the last one to resolve wins. Each modelled search runs to completion
  before the next one starts.
- Floating point: temperatures and wind speed are `real`. `Math.floor` is the exact floor `.Floor`,
  and humidity is an integer.
- Parsed bodies that are `null` or not objects, and `message` values that are not strings. Every
  body is modelled as an object with an optional string message.
- JSX markup, CSS and image assets. Icons are the enumeration `Icon`. The humidity and wind icons
  are fixed decorations.
- Missing leaf fields: a body that lacks `weather[0].icon`, `main.temp`, `temp_min`, `temp_max`,
  `main.humidity`, `wind.speed`, `name` or `weather[0].description` (or, in a forecast item, `main.temp`, `weather[0].icon`
  or `description`) does not throw. The search then succeeds with the clear icon, `NaN` or
  `undefined` values. The model has no undefined or NaN values, so every leaf field is present.
- IconFor: a JavaScript object lookup also finds inherited keys such as `"constructor"`, which would
  give a non-icon value. The model treats every code outside the fourteen table keys as unknown. The
  provider does not send such codes.
