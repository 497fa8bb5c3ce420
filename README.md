# Weather page session, unit conversion and hourly strip

A Dafny model of the logic inside the weather lookup page `js/app.js`. The page
takes a place name, asks a weather service for it, and shows the current
temperature and feels-like value in a selectable unit (Celsius, Fahrenheit,
Kelvin), a picture for the conditions, and a strip of hourly entries centred on
the current hour. The model covers:

- `temperature.dfy` (module `Temperature`): the Celsius-to-Fahrenheit and
  Celsius-to-Kelvin conversions, `Math.round` as `Floor(x + 1/2)`, and the
  read-out of `updateTemperatureDisplay` (two rounded values and a unit label).
- `icons.dfy` (module `Icons`): the icon table of `getWeatherIconUrl`, nine
  named provider codes and a `default` fallback.
- `text.dfy` (module `Text`): `String.prototype.trim` as the search handler uses
  it, with the ECMAScript white-space and line-terminator set.
- `hourly.dfy` (module `Hourly`): the window `start = max(hour - 12, 0)`,
  `end = min(start + 24, length)` and the loop of `displayHourlyForecast` that
  renders one item per index in `[start, end)`.
- `session.dfy` (module `Session`): class `WeatherSession`, whose four fields are
  the page's shared variables `currentTemperature`, `currentFeelsLike`,
  `currentUnit` and `currentLocation`, with the unit-button handler, search,
  refresh and the fetch both of these start. The network is an abstract
  `FetchOutcome` (a response with status and decoded body, or a transport
  failure with its message); the current hour is a parameter.

Facts about the page's code that the model keeps:

- The page makes one request to a weather service that resolves the place name
  itself. Icons are looked up by the provider's icon string.
- After a successful request the stored location is the string that was
  queried, not the provider's resolved address. Refresh re-sends that string.
- The precipitation shown is the provider's current value.
- A unit switch recomputes only the temperature and feels-like read-out. The
  hourly entries always show the rounded Celsius value labelled in Celsius.
- The hourly window's `end` is below its `start` when the series is shorter
  than `start`, and the loop then renders nothing. `Hourly.HourlyWindow` states
  `start <= hour < end` only for an hour inside the series.
- A full window from noon on holds the 12 entries before the current hour, the
  current hour and the 11 entries after it.

## Model

| member | source | states |
|---|---|---|
| Temperature.Round | js/app.js:138-139 | `Math.round` gives the integer n with n - 0.5 <= x < n + 0.5 |
| Temperature.RoundUnique | js/app.js:138-139 | any integer within that half-open band is the rounded value |
| Temperature.RoundHalfUp | js/app.js:138-139 | halves round towards positive infinity: n + 0.5 to n + 1, n - 0.5 to n |
| Temperature.ReadoutFor | js/app.js:118-139 | the label is the selected unit's, and each shown number is within half a degree of the converted stored value |
| Temperature.KelvinOffset | js/app.js:146-148 | Kelvin minus Celsius is exactly 273.15 |
| Temperature.FahrenheitStrictlyIncreasing | js/app.js:142-144 | the Fahrenheit conversion is strictly increasing |
| Temperature.FahrenheitLandmarks | js/app.js:142-144 | 0 to 32, 100 to 212, -40 to -40 |
| Temperature.SymbolIdentifiesUnit | js/app.js:120-136 | the three units have three different labels |
| Temperature.CelsiusReadoutIsRoundedStored | js/app.js:121-125 | under Celsius the shown numbers are the stored values rounded |
| Icons.WeatherIconUrl | js/app.js:251-268 | the lookup is total: a named code gets its own table entry, any other code the default picture |
| Icons.TableKeys | js/app.js:254-265 | the table's keys are the nine named codes and `default` |
| Icons.KnownIconsDistinct | js/app.js:254-264 | the nine named codes have nine different pictures, none of them the default |
| Icons.DefaultExactlyForUnknown | js/app.js:267 | the default picture is shown if and only if the code is not one of the nine |
| Text.LeadingWhitespace | js/app.js:152 | counts the white-space prefix: all before it is white space, the next character is not |
| Text.TrailingWhitespace | js/app.js:152 | counts the white-space suffix in the same way |
| Text.Trim | js/app.js:152 | the trimmed text is empty exactly when the input is all white space, and otherwise starts and ends with non-white space |
| Text.TrimIsTheMiddle | js/app.js:152 | trim returns the middle of any white-space prefix / middle / white-space suffix split |
| Text.TrimIdempotent | js/app.js:152 | trimming twice is trimming once |
| Hourly.HourlyWindow | js/app.js:230-231 | end <= length, end - start <= 24; start is 0 before hour 12 and hour - 12 from then on; end is the series length when start + 24 passes it, otherwise the window is 24 long; an hour inside the series lies in the window |
| Hourly.FullWindowAroundHour | js/app.js:229-231 | a full window from hour 12 on holds 12 entries before the current hour and 11 after it |
| Hourly.HourlyItemShows | js/app.js:234-245 | an entry shows its table picture, its conditions as alternative text, and its Celsius temperature rounded and labelled Celsius |
| Hourly.HourlyForecast | js/app.js:230-248 | at most 24 items and never more than the series has, one per window index; nothing when start is past the end |
| Hourly.HourlyForecastAt | js/app.js:233-234 | item k comes from series entry start + k, which lies in the window and inside the series, so items follow the series in increasing index order |
| Hourly.DisplayHourlyForecast | js/app.js:222-249 | the loop over `[start, end)` produces exactly the strip `HourlyForecast` describes, in increasing index order |
| Hourly.LateEveningWindow | js/app.js:230-233 | hour 23 with 24 entries gives the window [11, 24): thirteen items, the first from entry 11 |
| Hourly.ShortSeriesLateHour | js/app.js:230-233 | when start is at or past the end of the series, nothing is rendered |
| Session.ErrorMessage | js/app.js:170-172 | a response outside the 200 range shows exactly "Weather data not available"; a thrown failure shows its own message |
| Session.PanelFor | js/app.js:170-220 | the error panel appears exactly on failure and shows `ErrorMessage` (so "Weather data not available" for a non-ok response); on success the view has the provider's address, the read-out in the selected unit, the conditions, the current picture, wind speed, precipitation and the hourly strip |
| Session.HourlyIgnoresUnit | js/app.js:244 | the hourly strip does not depend on the selected unit |
| Session.WeatherSession.constructor | js/app.js:21-24 | the page starts with no stored values, Celsius selected and an empty location |
| Session.WeatherSession.Shown | js/app.js:115-140 | nothing is shown while no temperature is stored; otherwise the read-out of the stored values in the selected unit |
| Session.WeatherSession.SelectUnit | js/app.js:99-111 | only the unit changes (the stored values are outside its frame), and the read-out is redrawn in the new unit |
| Session.WeatherSession.FetchWeatherData | js/app.js:159-192 | on success the location becomes the queried string and both stored values are replaced; on failure location and values are kept; the unit is never changed |
| Session.WeatherSession.Search | js/app.js:151-157 | a request is made if and only if the input is not all white space, for the trimmed text; with no request nothing changes |
| Session.WeatherSession.Refresh | js/app.js:38-42 | no request while the location is empty; otherwise the stored location is fetched again and never changes |
| Session.UnitCycle | js/app.js:99-148 | Fahrenheit, Kelvin, then Celsius shows the stored values rounded in Celsius again, the same read-out as before when Celsius was selected; only the unit may change, so the stored values and the location stay untouched |

## Left out

- DOM reads and writes (`innerHTML`, `textContent`, `classList`, `appendChild`): the model returns the values, labels and items the page would write.
- The loading indicator written before each request: the model returns only what the region shows once the request has finished.
- Whether the weather elements stay visible once the loading indicator has replaced the container's contents depends on the page markup, which is not part of this model.
- `fetch`, building the request URL from `API_BASE_URL` and `API_KEY`, and `response.json()`: these are network I/O and names defined outside this file. They are replaced by the `FetchOutcome` parameter. A body that fails to decode is a `TransportFailure`.
- A decoded body without the fields the page reads (for example no `currentConditions` or no `hours`): the page then throws part-way through, after `currentLocation` has already been set. The model assumes a well-formed body.
- The clock and locale calls (`new Date()`, `getHours()`, `toLocaleDateString`): the current hour is a parameter. The date text and each hourly entry's `HH:00` label are not modelled, because they come from parsing timestamps with a library call.
- The text of the wind (`km/h`) and precipitation (`%`) fields: the model keeps the numeric values only.
- Floating point: the arithmetic is over `real`. IEEE-754 effects and `Math.round` on extreme floats are not modelled.
- A unit button whose `data-unit` is not one of `celsius`, `fahrenheit` or `kelvin` leaves the switch without a case. `Unit` has only the three values the page's buttons carry.
- Object-prototype keys such as `constructor` in the icon-table lookup: the table is modelled as a closed map over strings.
- Overlapping requests, where a stale response can overwrite a newer one: this is an interleaving concern outside a sequential model.
- Cookie consent through `localStorage` (js/app.js:45-62) and the custom location dropdown (js/app.js:65-93): these are UI and persistence plumbing. The dropdown ends in the same `handleSearch` that `Search` models.
