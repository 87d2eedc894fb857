# Weather lookup screen — Dafny model

This project models the logic of the single screen of a mobile weather
application (`app/index.tsx`). The user enters a name and a 5-digit US ZIP
code. The screen checks both, geocodes the ZIP code, fetches the current
weather for the coordinates, and shows it under a background photograph
and an icon chosen by the weather condition.

Modules:

- `Js` (`js.dfy`) covers the JavaScript behaviour the screen relies on.
  This is string truthiness and `||`, `String.prototype.trim` with the
  ECMA-262 whitespace set, `Math.round` (halves round up) and `%` with the
  sign of the dividend.
- `Validation` (`validation.dfy`) is `validateZipCode`. It models the regular
  expression `/^\d{5}$/` as a matcher that consumes five ASCII digits and
  then requires the end of the input.
- `Presentation` (`presentation.dfy`) holds `getWeatherBackground`, the
  `WeatherIcon` switch (as an `Icon` enumeration) and `getWindDirection`.
  Wind bearings are real numbers. A negative bearing can give an index below
  zero and so `undefined`; that case is modelled as `None`.
- `Lookup` (`lookup.dfy`) is the screen state `(name, zipCode, weatherData,
  loading, error)` and `handleSubmit`, `fetchWeatherByZip` and
  `fetchWeatherByCoords`. The two HTTP calls become parameters that give
  their outcome: a non-2xx body with an optional `message`, a 2xx body, or a
  thrown value. A lookup returns a `Run`, which is the final state plus each
  request sent. Each request is paired with the state produced by the setter
  calls made before it. React has not yet rendered those updates when the
  geocode request goes out, so this is the state the flow has committed to,
  not what is already drawn on screen.
  It also covers the page background choice and the contents of the
  weather panel.

Facts about `app/index.tsx` that the model keeps:

- No path stops a lookup for a missing API key: the key is never checked.
- The geocode step reports "Location not found for this zip code" when
  either coordinate is falsy. A coordinate equal to 0 counts as missing.
- A ZIP code that fails validation does not clear the weather already
  shown. `StaleWeatherBesideInvalidZip` proves that the old result stays on
  screen next to the validation message. The same holds for the
  blank-name and blank-ZIP exits of `handleSubmit`.
- The ZIP code is validated untrimmed. Only the blank check trims it.

## Model

| member | source | states |
|---|---|---|
| Js.BlankIffAllWhitespace | app/index.tsx:179-186 | `!s.trim()` holds exactly when every character of `s` is whitespace (the empty string included) |
| Js.NotBlank | app/index.tsx:179 | a string with one non-whitespace character passes the presence check |
| Js.TrimIsCore | app/index.tsx:179 | `trim` returns a contiguous piece of its input; everything dropped before and after it is whitespace, and it neither starts nor ends with whitespace |
| Js.TrimStart | app/index.tsx:179 | the result is a suffix of the input, the dropped prefix is all whitespace, and the result does not start with whitespace |
| Js.TrimEnd | app/index.tsx:179 | the result is a prefix of the input, the dropped suffix is all whitespace, and the result does not end with whitespace |
| Js.OrElse | app/index.tsx:140 | the `or` fallback of a message: the message when it is a non-empty string, else the fallback text |
| Js.Round | app/index.tsx:91 | `Math.round(x)` is an integer `k` with `k - 1/2 <= x < k + 1/2` |
| Js.RoundUnique | app/index.tsx:91 | only one integer satisfies that bound, so halves round up and the rounding is determined |
| Js.Rem | app/index.tsx:91 | JavaScript `%` by a positive modulus: the remainder has the dividend's sign, lies within one modulus of zero, and differs from the dividend by a multiple of the modulus |
| Validation.ValidateZipCode | app/index.tsx:118-121 | `validateZipCode` holds exactly for strings of five characters, each in `0`..`9` |
| Validation.MatchesDigitsIff | app/index.tsx:119-120 | the matcher for `\d{n}$` accepts exactly the strings of length `n` made only of ASCII digits |
| Validation.ZipExamples | app/index.tsx:118-121 | accepts "10001" and "00000"; rejects "", four and six digits, ZIP+4, leading or trailing spaces, signs, and a letter O |
| Presentation.WeatherBackground | app/index.tsx:44-55 | the background is always one of the six photographs; a condition without its own entry gets the Clear photograph |
| Presentation.ListedBackgrounds | app/index.tsx:45-52 | each of Clear, Clouds, Rain, Snow, Thunderstorm and Fog gets its own URL |
| Presentation.BackgroundsDistinct | app/index.tsx:45-52 | different listed conditions get different photographs |
| Presentation.ClearBackgroundIff | app/index.tsx:44-55 | the Clear photograph appears iff the condition is not Clouds, Rain, Snow, Thunderstorm or Fog, so Drizzle, Mist, Haze and "" fall back to it |
| Presentation.WeatherIcon | app/index.tsx:57-79 | a condition with a `case` label draws that label's icon (Rain and Drizzle the rain icon; Fog, Mist and Haze the fog icon); any other condition draws Sun |
| Presentation.IconPreimages | app/index.tsx:60-78 | Rain and Drizzle share the rain icon; Fog, Mist and Haze share the fog icon; Sun is drawn iff the condition is Clear or unlisted |
| Presentation.BackgroundAndIcon | app/index.tsx:44-79 | a condition with its own photograph never draws the default icon; Drizzle gets a rain icon over the Clear photograph |
| Presentation.WindDirection | app/index.tsx:89-93 | any label produced is one of the eight compass points |
| Presentation.WindDirectionSector | app/index.tsx:89-93 | a bearing `d >= 0` in `[45k - 22.5, 45k + 22.5)` gets compass point `k mod 8` |
| Presentation.WindDirectionDefined | app/index.tsx:89-93 | every bearing of at least 0 degrees has a label |
| Presentation.WindDirectionPeriodic | app/index.tsx:89-93 | adding 360 degrees to a bearing `>= 0` does not change its label |
| Presentation.NegativeWindDirection | app/index.tsx:91-92 | a negative bearing has a label iff it rounds to a multiple of eight sectors; otherwise the index is negative and the result is `undefined` |
| Presentation.WholeDegreeIndex | app/index.tsx:91 | for whole degrees `d`, `Math.round(d/45)` equals `(2d + 45) div 90` |
| Presentation.WindDirectionExamples | app/index.tsx:89-93 | 0 and 360 give N; 44, 45 and 22.5 give NE; 22.4 gives N; -45 gives `undefined` |
| Lookup.CaughtMessage | app/index.tsx:151 | a thrown `Error` shows its own `message`; any other thrown value shows "Error fetching weather data" |
| Lookup.Fail | app/index.tsx:150-152 | the `catch` block shows the message and clears the weather; it changes nothing else |
| Lookup.FetchWeatherByCoords | app/index.tsx:158-176 | sends one weather request for the given coordinates; weather is shown iff the response is 2xx, and then it is the response body with the error cleared; name, ZIP code and loading flag are untouched |
| Lookup.FetchWeatherByZip | app/index.tsx:123-156 | the loading flag ends false on every exit; each request is sent after `setLoading(true)` and `setError('')` have been called; a geocode request is sent only for a valid ZIP code, and at most two requests go out; the only exit that sends nothing is the invalid-ZIP one; name and ZIP code are untouched |
| Lookup.HandleSubmit | app/index.tsx:178-188 | no request goes out unless neither the name nor the ZIP code is blank; the flag stays up only if it was already up and nothing was sent |
| Lookup.PressGetWeather | app/index.tsx:228-231 | while loading, the disabled button does nothing; otherwise the press is exactly `handleSubmit` on the current state, and the loading flag is down afterwards |
| Lookup.BlankNameStopsSubmit | app/index.tsx:179-182 | a whitespace-only name sets "Please enter your name"; nothing else changes and no request is sent |
| Lookup.BlankZipStopsSubmit | app/index.tsx:183-186 | with a name present, a whitespace-only ZIP code sets "Please enter a zip code"; nothing else changes and no request is sent |
| Lookup.SubmitRunsLookupIff | app/index.tsx:178-188 | the submit runs the ZIP lookup iff neither field is whitespace-only |
| Lookup.EmptyFormNameFirst | app/index.tsx:179-182 | with both fields empty the name message wins |
| Lookup.PaddedZipInvalid | app/index.tsx:183-187 | a ZIP code with a leading space passes the blank check and fails validation |
| Lookup.InvalidZipRejected | app/index.tsx:125-132 | an invalid ZIP code sets "Please enter a valid 5-digit zip code", sends nothing, lowers the loading flag and keeps the weather shown |
| Lookup.GeocodeFailures | app/index.tsx:134-152 | a failed geocode shows the API message if it is non-empty, else "Invalid zip code or API error"; falsy coordinates show "Location not found for this zip code"; a thrown `Error` shows its message; every case clears the weather and sends only the geocode request |
| Lookup.ZeroCoordinateNotFound | app/index.tsx:145-147 | a latitude or longitude of 0 is treated as missing |
| Lookup.GeocodedCoordinatesFetched | app/index.tsx:145-149 | with truthy coordinates, the weather request uses exactly those coordinates and the final screen is the coordinate lookup's with loading lowered |
| Lookup.WeatherFailures | app/index.tsx:164-175 | a failed weather call shows the API message or "Error fetching weather data", or a thrown `Error`'s message, and clears the weather |
| Lookup.LookupShowsWeatherIff | app/index.tsx:138-176 | after validation passes, weather `d` is shown iff geocoding gave truthy coordinates and the weather call returned `d`; shown weather never sits next to an error |
| Lookup.StaleWeatherBesideInvalidZip | app/index.tsx:128-132 | a previous result stays on screen next to the invalid-ZIP message |
| Lookup.PageBackground | app/index.tsx:190-192 | with no weather the page shows the Clear photograph; with weather it shows the photograph of the first condition, or the Clear one when that condition has none |
| Lookup.PageAndPanelAgree | app/index.tsx:190-245 | when the page shows a photograph other than Clear, the panel's icon is not the sun |
| Lookup.WeatherPanel | app/index.tsx:240-284 | the weather panel is present iff weather is shown; it greets the entered name at the returned place, draws the icon of the first condition's `case` label (Sun when unlisted), and shows the wind bearing's compass point, which exists for any bearing of at least 0 degrees |
| Lookup.ExampleLookup | app/index.tsx:123-188 | "Ana" and 10001, geocoded to 40.7, -73.99, end with that weather shown, no error, loading false, after exactly two requests |
| Lookup.ClearWeatherDisplay | app/index.tsx:190-192 | Clear weather shows the Clear photograph and the Sun icon, and its wind has a compass point |
| Lookup.InitialScreen | app/index.tsx:190-192 | the initial screen shows the Clear photograph and no weather panel |

## Left out

- Rendering, styles and layout (the JSX after line 194) are not modelled. The one exception is which background, icon, greeting and wind label the panel shows.
- The HTTP requests, URL building and JSON decoding are not modelled. Their outcomes are parameters (`GeoResponse`, `WeatherResponse`). Both the API key and the country suffix "US" appear only in the URL, so they are left out too.
- An API error body whose `message` is a truthy non-string (a number, for example) is not represented. `message` is an optional string.
- The location-permission flow at startup (lines 102-116) is left out. It needs a device capability, and it runs unawaited, so it can race with a ZIP lookup. Its last step would be `FetchWeatherByCoords`, which is modelled. The race between overlapping lookups is concurrency and is not modelled either.
- `formatTime` is left out because it depends on the locale and time zone.
- The floating-point display values are left out: rounded temperatures, wind speed, and visibility divided by 1609.34 with `toFixed(1)`.
- Presentation.WeatherBackground: condition names that are `Object.prototype` properties ("toString", "__proto__", …) are excluded by precondition. In JavaScript they yield a truthy non-URL value.
- Lookup.PageBackground: requires a non-empty condition list, because `weather[0]` is read unchecked.
- Lookup.WeatherPanel: requires a non-empty condition list for the same reason.
- Presentation.WindDirection: bearings and coordinates are exact reals. IEEE-754 rounding and NaN are not represented, so `Math.round` is exact.
- Js.IsWhitespace: follows the WhiteSpace and LineTerminator code points of ECMA-262. The result of `trim` for any other Unicode space-like character is outside the model.
- The `maxLength={5}` and numeric-keyboard settings of the ZIP field only limit typing in the widget. The model accepts any ZIP string.
- Edits to the name and ZIP fields simply replace `name` and `zipCode`. They have no logic and are not modelled as operations.
