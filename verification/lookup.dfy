/**
  The state of the weather screen and the lookup flow that changes it:
  the submit handler, the ZIP-code lookup (validate, geocode, fetch
  weather) and the coordinate lookup. The two HTTP calls are replaced by
  the outcomes they can have, supplied as parameters; a run of the flow
  yields the final screen state together with the requests it issued,
  each paired with the state as the setter calls made before it leave it.
  The geocode request goes out before React renders those updates, so
  that state is the one the flow has committed to, not what is already
  drawn on screen.
 */
module Lookup {
  import opened Js
  import opened Validation
  import opened Presentation

  /** One entry of the weather response's `weather` array. */
  datatype Condition = Condition(main: string, description: string)

  /** The parts of a weather response the model follows: the condition
      list, the wind bearing in degrees and the place name. */
  datatype WeatherData = WeatherData(weather: seq<Condition>, windDeg: real, name: string)

  /** The screen's five pieces of state. */
  datatype AppState = AppState(
    name: string,
    zipCode: string,
    weatherData: Option<WeatherData>,
    loading: bool,
    error: string)

  /** The state the screen starts in. */
  const Initial := AppState("", "", None, false, "")

  /** A value reaching a `catch` clause: an `Error` object with its message,
      or any other thrown value. */
  datatype Thrown = ErrorObject(message: string) | OtherValue

  /** What the geocoding call can come back with: a non-2xx response whose
      body may carry a `message`, a 2xx body whose `lat`/`lon` may be
      missing, or an exception (network failure, undecodable body). */
  datatype GeoResponse =
    | GeoNotOk(message: Option<string>)
    | GeoOk(lat: Option<real>, lon: Option<real>)
    | GeoThrown(thrown: Thrown)

  /** What the weather call can come back with. */
  datatype WeatherResponse =
    | WeatherNotOk(message: Option<string>)
    | WeatherOk(data: WeatherData)
    | WeatherThrown(thrown: Thrown)

  /** A network request the flow sends. */
  datatype Request = GeocodeRequest(zip: string) | WeatherRequest(lat: real, lon: real)

  /** A request together with the state that the setter calls made
      before it have produced. */
  datatype Issued = Issued(request: Request, at: AppState)

  /** The outcome of one user action: the final state and the requests. */
  datatype Run = Run(final: AppState, issued: seq<Issued>)

  const NameRequired := "Please enter your name"
  const ZipRequired := "Please enter a zip code"
  const InvalidZip := "Please enter a valid 5-digit zip code"
  const GeocodeFailed := "Invalid zip code or API error"
  const LocationNotFound := "Location not found for this zip code"
  const WeatherFailed := "Error fetching weather data"

  /** The `catch` clauses' message: `err instanceof Error ? err.message
      : 'Error fetching weather data'`. */
  function CaughtMessage(t: Thrown): (m: string)
    ensures t.ErrorObject? ==> m == t.message
    ensures t.OtherValue? ==> m == WeatherFailed
  {
    match t
    case ErrorObject(message) => message
    case OtherValue => WeatherFailed
  }

  /** The `catch` block shared by both lookups: show the message and drop
      the weather shown. */
  function Fail(s: AppState, message: string): (s': AppState)
    ensures s'.error == message && s'.weatherData == None
    ensures s'.name == s.name && s'.zipCode == s.zipCode && s'.loading == s.loading
  {
    s.(error := message, weatherData := None)
  }

  /** `fetchWeatherByCoords`: one weather request; a 2xx response replaces
      the weather shown and clears the error, anything else shows a
      message and drops the weather. Its own `catch` swallows every
      failure, so nothing escapes to the caller, and it leaves the loading
      flag alone. */
  function FetchWeatherByCoords(s: AppState, lat: real, lon: real, response: WeatherResponse): (run: Run)
    ensures run.issued == [Issued(WeatherRequest(lat, lon), s)]
    ensures run.final.name == s.name && run.final.zipCode == s.zipCode
    ensures run.final.loading == s.loading
    ensures run.final.weatherData.Some? <==> response.WeatherOk?
    ensures response.WeatherOk? ==> run.final.weatherData == Some(response.data) && run.final.error == ""
  {
    var issued := [Issued(WeatherRequest(lat, lon), s)];
    match response
    case WeatherOk(data) => Run(s.(weatherData := Some(data), error := ""), issued)
    case WeatherNotOk(message) => Run(Fail(s, OrElse(message, WeatherFailed)), issued)
    case WeatherThrown(t) => Run(Fail(s, CaughtMessage(t)), issued)
  }

  /** `fetchWeatherByZip`: raise the loading flag and clear the error;
      reject a ZIP code that fails validation without any request; else
      geocode it, and when both coordinates are truthy fetch the weather
      for them. Every exit, through the `finally` block, lowers the loading
      flag, and every request goes out after the flag has been set and the
      error cleared. */
  function FetchWeatherByZip(s: AppState, geo: GeoResponse, weather: WeatherResponse): (run: Run)
    ensures !run.final.loading
    ensures run.final.name == s.name && run.final.zipCode == s.zipCode
    ensures forall i :: 0 <= i < |run.issued| ==> run.issued[i].at.loading && run.issued[i].at.error == ""
    ensures run.issued != [] ==> ValidateZipCode(s.zipCode) && run.issued[0].request == GeocodeRequest(s.zipCode)
    ensures run.issued == [] ==> run.final.error == InvalidZip
    ensures |run.issued| <= 2
  {
    var busy := s.(loading := true, error := "");
    if !ValidateZipCode(s.zipCode) then
      Run(busy.(error := InvalidZip, loading := false), [])
    else
      var geocode := [Issued(GeocodeRequest(s.zipCode), busy)];
      match geo
      case GeoNotOk(message) =>
        Run(Fail(busy, OrElse(message, GeocodeFailed)).(loading := false), geocode)
      case GeoThrown(t) =>
        Run(Fail(busy, CaughtMessage(t)).(loading := false), geocode)
      case GeoOk(lat, lon) =>
        if !TruthyNumber(lat) || !TruthyNumber(lon) then
          Run(Fail(busy, LocationNotFound).(loading := false), geocode)
        else
          var coords := FetchWeatherByCoords(busy, lat.value, lon.value, weather);
          Run(coords.final.(loading := false), geocode + coords.issued)
  }

  /** `handleSubmit`: a blank name, then a blank ZIP code, stops the action
      with a message and nothing else changed; otherwise the ZIP lookup
      runs. */
  function HandleSubmit(s: AppState, geo: GeoResponse, weather: WeatherResponse): (run: Run)
    ensures run.final.name == s.name && run.final.zipCode == s.zipCode
    ensures run.issued != [] ==> !IsBlank(s.name) && !IsBlank(s.zipCode)
    ensures run.final.loading ==> s.loading && run.issued == []
  {
    if IsBlank(s.name) then Run(s.(error := NameRequired), [])
    else if IsBlank(s.zipCode) then Run(s.(error := ZipRequired), [])
    else FetchWeatherByZip(s, geo, weather)
  }

  /** A press of the "Get Weather" button, which is disabled while a
      lookup is loading and otherwise runs the submit handler. */
  function PressGetWeather(s: AppState, geo: GeoResponse, weather: WeatherResponse): (run: Run)
    ensures s.loading ==> run == Run(s, [])
    ensures !s.loading ==> run == HandleSubmit(s, geo, weather)
    ensures !run.final.loading <==> !s.loading
  {
    if s.loading then Run(s, []) else HandleSubmit(s, geo, weather)
  }

  /** A whitespace-only name stops the submit with the name message before
      the ZIP code is looked at; nothing else changes and nothing is sent. */
  lemma BlankNameStopsSubmit(s: AppState, geo: GeoResponse, weather: WeatherResponse)
    requires AllWhitespace(s.name)
    ensures HandleSubmit(s, geo, weather) == Run(s.(error := NameRequired), [])
  {
    BlankIffAllWhitespace(s.name);
  }

  /** With a name present, a whitespace-only ZIP code stops the submit
      with the ZIP message; nothing else changes and nothing is sent. */
  lemma BlankZipStopsSubmit(s: AppState, geo: GeoResponse, weather: WeatherResponse)
    requires !AllWhitespace(s.name) && AllWhitespace(s.zipCode)
    ensures HandleSubmit(s, geo, weather) == Run(s.(error := ZipRequired), [])
  {
    BlankIffAllWhitespace(s.name);
    BlankIffAllWhitespace(s.zipCode);
  }

  /** A submit reaches the ZIP lookup exactly when neither field is
      whitespace-only. */
  lemma SubmitRunsLookupIff(s: AppState, geo: GeoResponse, weather: WeatherResponse)
    ensures HandleSubmit(s, geo, weather) == FetchWeatherByZip(s, geo, weather) <==>
      !AllWhitespace(s.name) && !AllWhitespace(s.zipCode)
  {
    BlankIffAllWhitespace(s.name);
    BlankIffAllWhitespace(s.zipCode);
    var h := HandleSubmit(s, geo, weather);
    var z := FetchWeatherByZip(s, geo, weather);
    if IsBlank(s.name) || IsBlank(s.zipCode) {
      assert h.issued == [] && h.final.error in {NameRequired, ZipRequired};
      assert z.issued != [] || z.final.error == InvalidZip;
    }
  }

  /** The ZIP code is validated untrimmed: with a name present, a ZIP code
      that is not whitespace-only but fails validation reaches the lookup
      and is rejected there, with no request, the loading flag down and
      the weather shown left in place. */
  lemma InvalidZipRejected(s: AppState, geo: GeoResponse, weather: WeatherResponse)
    requires !ValidateZipCode(s.zipCode)
    ensures FetchWeatherByZip(s, geo, weather) == Run(s.(error := InvalidZip, loading := false), [])
  {
  }

  /** With both fields empty the name message wins. */
  lemma EmptyFormNameFirst(geo: GeoResponse, weather: WeatherResponse)
    ensures HandleSubmit(Initial, geo, weather) == Run(Initial.(error := NameRequired), [])
  {
    BlankNameStopsSubmit(Initial, geo, weather);
  }

  /** The ZIP code is checked untrimmed: a ZIP code with a leading space is
      not blank, reaches the lookup and fails validation there. */
  lemma PaddedZipInvalid(s: AppState, geo: GeoResponse, weather: WeatherResponse)
    requires !AllWhitespace(s.name) && s.zipCode == " 1000"
    ensures HandleSubmit(s, geo, weather) == Run(s.(error := InvalidZip, loading := false), [])
  {
    BlankIffAllWhitespace(s.name);
    NotBlank(s.zipCode, 1);
  }

  /** The message a failed geocoding call leaves on screen, and that it
      drops the weather shown and sends nothing further. */
  lemma GeocodeFailures(s: AppState, geo: GeoResponse, weather: WeatherResponse)
    requires ValidateZipCode(s.zipCode)
    requires geo.GeoOk? ==> !TruthyNumber(geo.lat) || !TruthyNumber(geo.lon)
    ensures FetchWeatherByZip(s, geo, weather).final.weatherData == None
    ensures FetchWeatherByZip(s, geo, weather).issued == [Issued(GeocodeRequest(s.zipCode), s.(loading := true, error := ""))]
    ensures FetchWeatherByZip(s, geo, weather).final.error ==
      match geo
      case GeoNotOk(m) => if TruthyString(m) then m.value else GeocodeFailed
      case GeoOk(_, _) => LocationNotFound
      case GeoThrown(t) => if t.ErrorObject? then t.message else WeatherFailed
  {
  }

  /** A latitude or longitude of exactly 0 counts as missing. */
  lemma ZeroCoordinateNotFound(s: AppState, lon: real, weather: WeatherResponse)
    requires ValidateZipCode(s.zipCode)
    ensures FetchWeatherByZip(s, GeoOk(Some(0.0), Some(lon)), weather).final.error == LocationNotFound
    ensures FetchWeatherByZip(s, GeoOk(Some(lon), Some(0.0)), weather).final.error == LocationNotFound
  {
  }

  /** Once geocoding yields two truthy coordinates, the weather request
      goes out for exactly those coordinates, and the final screen is the
      coordinate lookup's with the loading flag lowered. */
  lemma GeocodedCoordinatesFetched(s: AppState, lat: real, lon: real, weather: WeatherResponse)
    requires ValidateZipCode(s.zipCode) && lat != 0.0 && lon != 0.0
    ensures
      var busy := s.(loading := true, error := "");
      var run := FetchWeatherByZip(s, GeoOk(Some(lat), Some(lon)), weather);
      && run.issued == [Issued(GeocodeRequest(s.zipCode), busy), Issued(WeatherRequest(lat, lon), busy)]
      && run.final == FetchWeatherByCoords(busy, lat, lon, weather).final.(loading := false)
  {
  }

  /** The messages a failed weather call leaves on screen. */
  lemma WeatherFailures(s: AppState, lat: real, lon: real, weather: WeatherResponse)
    requires !weather.WeatherOk?
    ensures FetchWeatherByCoords(s, lat, lon, weather).final.weatherData == None
    ensures FetchWeatherByCoords(s, lat, lon, weather).final.error ==
      match weather
      case WeatherNotOk(m) => if TruthyString(m) then m.value else WeatherFailed
      case WeatherThrown(t) => if t.ErrorObject? then t.message else WeatherFailed
      case WeatherOk(_) => ""
  {
  }

  /** After a lookup that passed validation, weather is on screen exactly
      when geocoding gave two truthy coordinates and the weather call
      succeeded, and then it is that call's data with no error beside it. */
  lemma LookupShowsWeatherIff(s: AppState, geo: GeoResponse, weather: WeatherResponse, d: WeatherData)
    requires ValidateZipCode(s.zipCode)
    ensures FetchWeatherByZip(s, geo, weather).final.weatherData == Some(d) <==>
      geo.GeoOk? && TruthyNumber(geo.lat) && TruthyNumber(geo.lon) && weather == WeatherOk(d)
    ensures FetchWeatherByZip(s, geo, weather).final.weatherData.Some? ==>
      FetchWeatherByZip(s, geo, weather).final.error == ""
  {
  }

  /** The validation exit does not drop the weather already shown, so a
      previous result stays on screen beside the validation message. */
  lemma StaleWeatherBesideInvalidZip(d: WeatherData, geo: GeoResponse, weather: WeatherResponse)
    ensures
      var s := AppState("Ana", "1000", Some(d), false, "");
      var run := HandleSubmit(s, geo, weather);
      run.final.weatherData == Some(d) && run.final.error == InvalidZip
  {
    var s := AppState("Ana", "1000", Some(d), false, "");
    NotBlank(s.name, 0);
    NotBlank(s.zipCode, 0);
  }

  /** `backgroundImage`: the photograph of the first condition when weather
      is shown, else the clear-sky one. */
  function PageBackground(data: Option<WeatherData>): (url: string)
    requires data.Some? ==> |data.value.weather| > 0 && data.value.weather[0].main !in ObjectPrototypeKeys
    ensures data.None? ==> url == ClearUrl
    ensures url in Backgrounds.Values
    ensures data.Some? && data.value.weather[0].main in Backgrounds ==> url == Backgrounds[data.value.weather[0].main]
    ensures data.Some? && data.value.weather[0].main !in Backgrounds ==> url == ClearUrl
  {
    if data.Some? then WeatherBackground(data.value.weather[0].main)
    else WeatherBackground("Clear")
  }

  /** What the weather panel shows, when weather is on screen: the greeting
      name, the place, the icon of the first condition and the compass
      point of the wind. */
  datatype Panel = Panel(greeting: string, place: string, icon: Icon, wind: Option<string>)

  /** The weather panel, present only while weather is shown. */
  function WeatherPanel(s: AppState): (p: Option<Panel>)
    requires s.weatherData.Some? ==> |s.weatherData.value.weather| > 0
    ensures p.Some? <==> s.weatherData.Some?
    ensures p.Some? ==> p.value.greeting == s.name && p.value.place == s.weatherData.value.name
    ensures p.Some? && s.weatherData.value.weather[0].main in IconCases ==>
      p.value.icon == IconCases[s.weatherData.value.weather[0].main]
    ensures p.Some? && s.weatherData.value.weather[0].main !in IconCases ==> p.value.icon == Sun
    ensures p.Some? && s.weatherData.value.windDeg >= 0.0 ==> p.value.wind.Some? && p.value.wind.value in Directions
    ensures p.Some? ==> p.value.wind == WindDirection(s.weatherData.value.windDeg)
  {
    match s.weatherData
    case None => None
    case Some(d) => Some(Panel(s.name, d.name, WeatherIcon(d.weather[0].main), WindDirection(d.windDeg)))
  }

  /** The worked example: "Ana" and 10001 geocode to 40.7, -73.99 and the
      weather there comes back, so the screen shows it with no error and
      the loading flag down, after exactly the two requests. */
  lemma ExampleLookup(d: WeatherData)
    ensures
      var s := Initial.(name := "Ana", zipCode := "10001");
      var run := HandleSubmit(s, GeoOk(Some(40.7), Some(-73.99)), WeatherOk(d));
      && run.final == AppState("Ana", "10001", Some(d), false, "")
      && |run.issued| == 2 && run.issued[1].request == WeatherRequest(40.7, -73.99)
  {
    var s := Initial.(name := "Ana", zipCode := "10001");
    NotBlank(s.name, 0);
    NotBlank(s.zipCode, 0);
    var geo := GeoOk(Some(40.7), Some(-73.99));
    assert HandleSubmit(s, geo, WeatherOk(d)) == FetchWeatherByZip(s, geo, WeatherOk(d));
    GeocodedCoordinatesFetched(s, 40.7, -73.99, WeatherOk(d));
  }

  /** Clear weather is shown under the clear-sky photograph with the sun
      icon, and a bearing of at least 0 degrees always has a compass
      point. */
  lemma ClearWeatherDisplay(s: AppState, description: string)
    requires s.weatherData.Some? && s.weatherData.value.weather == [Condition("Clear", description)]
    requires s.weatherData.value.windDeg >= 0.0
    ensures PageBackground(s.weatherData) == ClearUrl
    ensures WeatherPanel(s).Some? && WeatherPanel(s).value.icon == Sun && WeatherPanel(s).value.wind.Some?
  {
    ListedBackgrounds();
    WindDirectionDefined(s.weatherData.value.windDeg);
  }

  /** The page and the panel agree on the first condition: a photograph
      other than the clear-sky one always comes with an icon other than
      the sun. */
  lemma PageAndPanelAgree(s: AppState)
    requires s.weatherData.Some? && |s.weatherData.value.weather| > 0
    requires s.weatherData.value.weather[0].main !in ObjectPrototypeKeys
    ensures PageBackground(s.weatherData) != ClearUrl ==> WeatherPanel(s).value.icon != Sun
  {
    BackgroundAndIcon(s.weatherData.value.weather[0].main);
  }

  /** Before any lookup the page shows the clear-sky photograph and no
      panel. */
  lemma InitialScreen()
    ensures PageBackground(Initial.weatherData) == ClearUrl
    ensures WeatherPanel(Initial) == None
  {
  }
}
