# Forecast day pagination of the Weathermap screen

The Weathermap app is a single React Native screen (`App.js`). It fetches a
5-day, 3-hour forecast for a place and shows one calendar day at a time.
This project models the logic that turns the forecast into pages:

- **Day grouping.** `renderWeatherData` maps every forecast sample to a
  date key with `formatDate`. It then de-duplicates the keys through a
  JavaScript `Set`, which keeps the first-seen order.
- **Day selection.** The samples whose key equals the selected date are
  picked out with `filter`, in forecast order.
- **Selected-day cursor.** `selectedDayIndex` is set to 0 each time a
  forecast arrives. It is clamped into the day list while the page is
  computed. The Previous Day and Next Day buttons step it by one, and each
  button is disabled at its end of the list.

`formatDate` depends on the device's locale and time zone. Here it is a
parameter of type `int -> string`, and every property is proved for all
such functions.

Files:

- `forecast.dfy` (module `Forecast`): the sample record and the idealised
  Kelvin-to-Celsius display rounding.
- `grouping.dfy` (module `DayGrouping`): order-preserving de-duplication,
  the day list and the day filter, and their properties.
- `navigation.dfy` (module `DayNavigation`): the clamp, the computed page
  (`RenderView`, and `ForecastArea` around it), the effect of the two buttons, and the class
  `ForecastScreen`. The class holds the screen's two state cells:
  the stored response (`loaded` and `samples`) and `cursor`.

Order of events, kept as the screen has it:

- The page is computed with the cursor as it stands.
- A cursor outside the day list looks up `undefined`. The model writes this
  as `None`, and the filter then keeps no sample.
- The clamp is a separate state update made while computing the page. It
  takes effect on the next pass.

`ForecastScreen.Render` returns the pre-clamp page and then clamps. A fetch
makes two separate state updates, `setWeatherData` and then
`setSelectedDayIndex(0)`; the model has them as `ReplaceSamples` followed
by `Load`'s reset. If the page is computed between the two, the cursor can
point past the end of a shorter new forecast. In the model, that is the
only way a cursor gets out of range, and it is the case the clamp repairs
(`StaleCursorAfterShorterForecast`).

The day pages are computed only when a response is stored
(`{weatherData && renderWeatherData()}`, App.js:195). While `weatherData`
is null the forecast area is blank; this covers the initial state and a
response with a null body. `ForecastScreen` keeps this as the field
`loaded` and `ForecastArea` gives it the result `Blank`. A response whose
`list` is missing or empty takes the "No weather data available" branch,
and both are modelled as an empty sample sequence. The `!weatherData` test
at App.js:74 is therefore never reached.

## Model

| member | source | states |
|---|---|---|
| `DayGrouping.Dedup` | App.js:78 | The `Set` round trip yields no value twice, holds exactly the values of its input, and is no longer than it |
| `DayGrouping.DedupFirstSeenOrder` | App.js:78 | One value precedes another in the de-duplicated list exactly when its first occurrence in the input is earlier |
| `DayGrouping.DedupUnique` | App.js:78 | Any duplicate-free sequence with the input's values in first-seen order equals the de-duplicated list, so those three properties define the `Set` order completely |
| `DayGrouping.UniqueDates` | App.js:78 | The day list has no duplicate date, contains every sample's date and only dates of some sample, is no longer than the forecast, and is non-empty for a non-empty forecast |
| `DayGrouping.UniqueDatesFirstSeenOrder` | App.js:78 | Day i precedes day j exactly when the first sample of day i precedes the first sample of day j |
| `DayGrouping.SelectedDay` | App.js:87-89 | The filtered samples are samples of the forecast, all with the selected date, and no more of them than the forecast holds |
| `DayGrouping.MatchingIndices` | App.js:87-89 | Reference for the filter: the ascending positions in range whose sample has the selected date, and no other positions |
| `DayGrouping.SelectedDayIsMatchingSubsequence` | App.js:87-89 | The filter's k-th sample is the sample at the k-th matching position, so it keeps exactly the matching samples in forecast order |
| `DayGrouping.SelectedDayNonEmpty` | App.js:78-89 | For every listed day, the filter yields at least one sample |
| `DayGrouping.SampleOnExactlyOneDay` | App.js:78-89 | Every sample position belongs to the filter of exactly one listed day |
| `DayNavigation.ClampIndex` | App.js:80-84 | For n >= 1 the clamped index lies in [0, n), an index already in range is unchanged, and no index in range is nearer the original |
| `DayNavigation.ClampIdempotent` | App.js:80-84 | Clamping a clamped index changes nothing |
| `DayNavigation.RenderView` | App.js:73-113 | The page computed for a stored response is never blank, and it is the no-data text exactly when the forecast is empty |
| `DayNavigation.ForecastArea` | App.js:195 | The forecast area is blank exactly when no response is stored, and it is the no-data text exactly when the stored response has no samples |
| `DayNavigation.RenderInRange` | App.js:86-112 | With the cursor on a day, the page shows that day's date and its non-empty filtered samples; Previous is enabled exactly when the cursor is past the first day, Next exactly when it is before the last |
| `DayNavigation.RenderStaleCursor` | App.js:80-89 | With data and a cursor off the day list, the page computed in that pass has no date and no samples, because the lookup precedes the clamp |
| `DayNavigation.RenderAfterClamp` | App.js:80-89 | After clamping, the page computed next holds a listed date with at least one sample, whatever the cursor was |
| `DayNavigation.PreviousCursor` | App.js:104-108 | Previous Day moves the cursor back by exactly one when there is data and the cursor is not 0, and otherwise leaves it |
| `DayNavigation.NextCursor` | App.js:109-113 | Next Day moves the cursor forward by exactly one when there is data and the cursor is not on the last day, and otherwise leaves it |
| `DayNavigation.NavigationStaysInRange` | App.js:104-113 | From a cursor on a day, neither button takes it off the day list |
| `DayNavigation.NextPreviousRoundTrip` | App.js:104-113 | Next then Previous restores a cursor that is before the last day; Previous then Next restores one that is past the first |
| `DayNavigation.NavigationBlockedAtEnds` | App.js:103-113 | Previous does nothing at day 0, Next does nothing at the last day, and neither does anything without data |
| `DayNavigation.TwoDayForecast` | App.js:78-113 | Samples of one day followed by samples of another give exactly those two days in order; day 0 offers only Next, and after Next only Previous is offered |
| `DayNavigation.ForecastScreen.constructor` | App.js:14-15 | The screen starts with no response stored and the cursor at 0, so the forecast area is blank |
| `DayNavigation.ForecastScreen.ReplaceSamples` | App.js:54 | Storing a response replaces the stored response wholesale, a null body with none, and leaves the cursor |
| `DayNavigation.ForecastScreen.Load` | App.js:54-55 | A successful fetch stores exactly the new response and sets the cursor to 0. The result is valid: blank for a null body, the no-data text for no samples, otherwise the first day's non-empty filtered samples with Previous disabled. App.js:66-67 does the same for a map tap |
| `DayNavigation.ForecastScreen.Clamp` | App.js:80-84 | With data, the cursor becomes the clamped index and is then on a day; without data it is untouched; a valid cursor is never changed |
| `DayNavigation.ForecastScreen.Render` | App.js:73-89 | With a response stored, returns the page for the pre-clamp cursor, then leaves the cursor clamped so that the next page computed holds a non-empty day; with none, returns blank and changes nothing |
| `DayNavigation.ForecastScreen.Previous` | App.js:104-108 | With a response stored, a press on Previous Day sets the cursor to `PreviousCursor` of the old state; with none there is no button. It keeps the response and preserves validity |
| `DayNavigation.ForecastScreen.Next` | App.js:109-113 | With a response stored, a press on Next Day sets the cursor to `NextCursor` of the old state; with none there is no button. It keeps the response and preserves validity |
| `DayNavigation.NextThenPrevious` | App.js:104-113 | On the screen object, Next then Previous from any day but the last restores the cursor and the page |
| `DayNavigation.StaleCursorAfterShorterForecast` | App.js:80-89 | A non-empty forecast stored while the cursor is at or past its day count: the page computed before the reset has no date and no samples, and its clamp puts the cursor on the new last day |
| `Forecast.DisplayCelsius` | App.js:99 | The displayed whole degrees are within half a degree of kelvin - 273.15, with halves rounded up |
| `Forecast.DisplayCelsiusExamples` | App.js:99 | 295.15 K displays as 22; 273.65 K rounds up to 1; 272.65 K rounds to 0 |

## Left out

- Location permission and the device position (App.js:20-31): these are asynchronous device calls. The model has no initial location.
- HTTP fetching and the API key (App.js:49-71): network I/O. Only the effect of a successful response is kept (`ReplaceSamples`, then the reset in `Load`). A failed request is only logged, so it changes no state and has no counterpart in the model.
- The search and map-press handlers, keyboard dismissal and modal visibility (App.js:33-47, App.js:186-204): event plumbing that does not touch the forecast state.
- The JSX markup, the map, the marker and the styles (App.js:91-116 markup, App.js:129-282): presentation only. `ViewState` keeps what the markup shows of the forecast: the date, the samples and the two button states.
- The real `toLocaleDateString` (App.js:119-122): it depends on the ambient locale and time zone. `formatDate` is an arbitrary parameter, so nothing assumes its output format.
- `formatTime` (App.js:124-127): display only. It does not affect grouping.
- DisplayCelsius: idealised on exact reals. The floating-point subtraction of 273.15, and its rounding near .5 boundaries, is not modelled.
- A change of `formatDate` while the screen is open: `formatDate` is fixed for the screen's lifetime (`ForecastScreen.formatDate` is a constant). In the app, `toLocaleDateString` runs again on every render under the device's current time zone, so a time-zone change between renders can change how many days the stored forecast has. That can leave a cursor past the end, which the clamp repairs. The model does not capture this route, and `Valid()` is preserved partly because the key function never changes.
- The discarded render pass: the clamp at App.js:81/83 calls the component's own state setter while rendering, so React throws away that pass's output and renders again at once with the clamped cursor. The model keeps the stale pass's return value (`ForecastScreen.Render`, `RenderStaleCursor`, `StaleCursorAfterShorterForecast`) as what `renderWeatherData` computes; it does not model which output React puts on screen, so the empty page is never claimed to be displayed.
- React's scheduling of re-renders and the batching of state updates: the model treats each state setter as taking effect in program order. It also treats each button press as acting on the latest computed page. A press on a button left over from an earlier page, which still holds an older cursor in its closure, is not modelled.
