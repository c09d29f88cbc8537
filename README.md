# Weather page: request state, forecast normalisation and weather-code classifiers

A Dafny model of the logic of a small weather page. The page fetches the current conditions and a
daily forecast from a forecast service. It keeps the request's progress in a store slice and draws
each weather code with a description, an icon and a colour. The model covers four parts:

- **The weather slice** (`WeatherSlice`). The state holds the current weather, the forecast days,
  a status (`Idle`, `Loading`, `Succeeded`, `Failed`) and an error. It has three case reducers:
  pending, fulfilled and rejected. `WeatherStore` is a class whose methods update these fields in
  place, as the slice does. Each method is tied to `Reduce`, a function on state values. `Run`
  replays a whole history of actions. The lemmas say what any history leaves behind:
  - the data comes from the last fulfilled payload;
  - the error is the last rejection's text;
  - every reachable state is consistent.
  The status type allows only the four values, so "status is one of four" holds by construction.
- **Forecast normalisation** (`Api`). A decoded response is turned into one `WeatherData` and one
  `DailyForecast` per day. A non-ok response is turned into the fixed error. `Encode` is the
  inverse of the normalisation, and two round-trip lemmas prove that nothing is lost and the order
  of days is kept.
- **Weather-code descriptions** (`Api.Description`). A table of thirteen codes, with a fallback.
- **Card classifiers** (`WeatherCard.Styles`, `ForecastCard.Styles`). Each component has its own
  chain of code-list tests. Both are proved against one reference, `WeatherGroups.GroupOf`, which
  sorts codes into the six groups the components test for. The two cards are proved to show the
  same icon for every code.

What the slice and the client do:

- `error` is set only by a rejection and is never cleared, so it keeps its last text through later
  requests and successes (`ErrorFromLastRejection`).
- Every day the service sends is kept, one forecast record per `daily.time` entry, in order.
- Temperatures are copied as sent.
- A late outcome of an older request overwrites the state left by a newer one. The history lemmas
  hold for every order in which actions arrive.

## Model

| member | source | states |
|---|---|---|
| Api.DailyPrefix | src/utils/api.tsx:21-26 | the first n normalised days: exactly n entries, entry i built from index i of the four daily arrays |
| Api.NormaliseCurrent | src/utils/api.tsx:16-20 | a field-for-field copy of temperature_2m, weather_code and time, with no transformation |
| Api.NormaliseDaily | src/utils/api.tsx:21-26 | one forecast record per `daily.time` entry, in order: entry i holds `time[i]`, the maximum and minimum of day i and its weather code |
| Api.FetchWeatherData | src/utils/api.tsx:10-27 | fails exactly when the response is not ok, and then with the fixed message; otherwise the current record is a field-for-field copy and there is one day per `daily.time` entry, in order |
| Api.FetchEncoded | src/utils/api.tsx:15-27 | every payload is recovered from the aligned response that encodes it: normalisation loses nothing |
| Api.EncodeFetched | src/utils/api.tsx:15-27 | an ok response with aligned arrays is recovered from its normalised payload |
| Api.Description | src/utils/api.tsx:30-47 | total and never empty; a tabled code gives its entry; any other integer gives the fallback |
| Api.DescribedExactly | src/utils/api.tsx:31-46 | the description differs from the fallback exactly for the thirteen listed codes |
| Api.DescriptionExamples | src/utils/api.tsx:31-46 | 0 and 95 give their entries; 48, 53, 55, 96 and 99 fall back |
| WeatherGroups.GroupOf | src/components/WeatherCard.tsx:11-17 | each code is in the group whose list holds it, and in `Other` exactly when no list does |
| WeatherCard.Styles | src/components/WeatherCard.tsx:10-18 | total; the default background and the default icon occur exactly for ungrouped codes |
| WeatherCard.GroupStyles | src/components/WeatherCard.tsx:11-16 | the background and icon of each of the six groups |
| WeatherCard.StyleDeterminesGroup | src/components/WeatherCard.tsx:10-18 | two codes share a background, and share an icon, exactly when they share a group |
| WeatherCard.DescribedCodesAreStyled | src/components/WeatherCard.tsx:11-16 | every code with its own description gets a non-default background and icon |
| ForecastCard.Styles | src/components/ForecastCard.tsx:11-19 | total; the default icon occurs exactly for ungrouped codes; the gray text colour exactly for cloudy or ungrouped codes |
| ForecastCard.GroupStyles | src/components/ForecastCard.tsx:12-17 | the colour and icon of each of the six groups |
| ForecastCard.StyleDeterminesGroup | src/components/ForecastCard.tsx:11-19 | icons are equal exactly within a group; colours are equal within a group or between cloudy and ungrouped codes |
| ForecastCard.IconsAgree | src/components/ForecastCard.tsx:11-19 | for every code, the forecast card's icon equals the current-weather card's icon |
| WeatherSlice.ErrorText | src/store/WeatherSlice.tsx:43 | never empty; a non-empty message is kept, and a missing or empty one becomes the default |
| WeatherSlice.Reduce | src/store/WeatherSlice.tsx:33-44 | pending changes only the status; fulfilled sets the status and both data fields from the one payload and keeps the error; rejected sets the status and a non-empty error and keeps the data |
| WeatherSlice.DataFromLastPayload | src/store/WeatherSlice.tsx:36-40 | after any history, current weather and forecast both come from the last fulfilled payload, or are unchanged if there was none |
| WeatherSlice.ErrorFromLastRejection | src/store/WeatherSlice.tsx:41-44 | after any history, the error is the last rejection's text, or unchanged if there was none: it is never cleared |
| WeatherSlice.StatusFromLastAction | src/store/WeatherSlice.tsx:33-44 | the status after a history is decided by its last action alone |
| WeatherSlice.ReachableStatesConsistent | src/store/WeatherSlice.tsx:12-44 | from the initial state, any history keeps the state consistent: no current weather means no forecast, succeeded means current weather is present, failed means an error text is present; and the status is idle exactly when no action has run |
| WeatherSlice.FulfilTwice | src/store/WeatherSlice.tsx:33-40 | fetching the same payload twice in a row ends in the same state as fetching it once |
| WeatherSlice.FetchWeather | src/store/WeatherSlice.tsx:19-25 | a request is the pending action followed by fulfilled with the normalised payload for an ok response, or by rejected with the fixed message otherwise |
| WeatherSlice.FetchFailureKeepsData | src/store/WeatherSlice.tsx:19-44 | a non-ok response leaves status failed, the previous data in place and the fixed message as the error |
| WeatherSlice.FetchSuccessReplacesData | src/store/WeatherSlice.tsx:19-40 | an ok response leaves status succeeded, the normalised current weather and forecast (one entry per day) and the previous error |
| WeatherSlice.WeatherStore.constructor | src/store/WeatherSlice.tsx:12-17 | the initial state: no current weather, no forecast days, idle, no error |
| WeatherSlice.WeatherStore.OnPending | src/store/WeatherSlice.tsx:33-35 | the status becomes loading; data and error are unchanged |
| WeatherSlice.WeatherStore.OnFulfilled | src/store/WeatherSlice.tsx:36-40 | the status becomes succeeded; current weather and forecast are replaced together from the payload; the error is unchanged |
| WeatherSlice.WeatherStore.OnRejected | src/store/WeatherSlice.tsx:41-44 | the status becomes failed; the error becomes the message or the default; data is unchanged |
| WeatherSlice.WeatherStore.Dispatch | src/store/WeatherSlice.tsx:27-46 | routes each action to its case; the new state is `Reduce` of the old one |

## Left out

- The HTTP request, URL building and JSON decoding in `fetchWeatherData`. This is I/O. A response is an input: its `ok` flag and its decoded body. When `fetch` itself rejects or `response.json()` throws, the thunk rejects with that error's own message instead of the fixed one. `WeatherSlice.FetchWeather` does not cover these outcomes, but `WeatherSlice.Reduce` and `WeatherSlice.ErrorFromLastRejection` hold for a rejection with any message.
- Api.DailyPrefix, Api.NormaliseDaily, Api.FetchWeatherData, WeatherSlice.FetchWeather and WeatherSlice.FetchSuccessReplacesData require each parallel daily array to be at least as long as `daily.time`. With a shorter array the code would read `undefined` into a record, and JavaScript's `undefined` is not modelled. The forecast service sends the arrays aligned.
- A body that lacks `current` or `daily` makes the code throw a `TypeError` while reading a field. The thunk would then reject with that error's message. The model's body always has both objects.
- The asynchronous machinery of `createAsyncThunk`. The three actions are plain inputs. When two requests overlap, their actions can interleave in any order. The history lemmas hold for every order, but no order is singled out.
- Weather codes are integers. A non-integer JavaScript number would miss every table and group, and would get the fallback description and the default style.
- Temperatures are opaque reals: they are only copied, never computed on.
- The JSX of both cards, src/app/page.tsx (rendering, the dispatch on mount, date formatting with a foreign library), src/app/layout.tsx, the two skeleton components and src/store/store.tsx (store and hook wiring). None of them holds logic of its own.
