/**
  The display helpers of the weather screen: the background photograph
  chosen for a weather condition, the condition icon, and the compass
  label of a wind bearing. Each is total over its inputs and falls back
  to the "Clear" choice for conditions it does not list.
 */
module Presentation {
  import opened Js

  const ClearUrl := "https://images.unsplash.com/photo-1601297183305-6df142704ea2"
  const CloudsUrl := "https://images.unsplash.com/photo-1534088568595-a066f410bcda"
  const RainUrl := "https://images.unsplash.com/photo-1519692933481-e162a57d6721"
  const SnowUrl := "https://images.unsplash.com/photo-1542601906990-b4d3fb778b09"
  const ThunderstormUrl := "https://images.unsplash.com/photo-1605727216801-e27ce1d0cc28"
  const FogUrl := "https://images.unsplash.com/photo-1543968996-ee822b8176ba"

  /** The `backgrounds` record: condition name to photograph URL. */
  const Backgrounds: map<string, string> := map[
    "Clear" := ClearUrl,
    "Clouds" := CloudsUrl,
    "Rain" := RainUrl,
    "Snow" := SnowUrl,
    "Thunderstorm" := ThunderstormUrl,
    "Fog" := FogUrl
  ]

  /** Property names every plain object inherits from `Object.prototype`;
      looking one of them up in the `backgrounds` record yields a truthy
      non-URL value, so they are kept out of the model. */
  const ObjectPrototypeKeys: set<string> := {
    "constructor", "hasOwnProperty", "isPrototypeOf", "propertyIsEnumerable",
    "toLocaleString", "toString", "valueOf", "__proto__",
    "__defineGetter__", "__defineSetter__", "__lookupGetter__", "__lookupSetter__"
  }

  /** `backgrounds[condition]`: the own property, or `undefined`. */
  function LookupBackground(condition: string): Option<string>
    requires condition !in ObjectPrototypeKeys
  {
    if condition in Backgrounds then Some(Backgrounds[condition]) else None
  }

  /** `getWeatherBackground`: `backgrounds[condition] || backgrounds.Clear`.
      The result is always one of the six photographs, and a condition
      without a photograph of its own gets the clear-sky one. */
  function WeatherBackground(condition: string): (url: string)
    requires condition !in ObjectPrototypeKeys
    ensures url in Backgrounds.Values
    ensures condition !in Backgrounds ==> url == ClearUrl
  {
    OrElse(LookupBackground(condition), Backgrounds["Clear"])
  }

  /** Each listed condition gets its own photograph. */
  lemma ListedBackgrounds()
    ensures WeatherBackground("Clear") == ClearUrl
    ensures WeatherBackground("Clouds") == CloudsUrl
    ensures WeatherBackground("Rain") == RainUrl
    ensures WeatherBackground("Snow") == SnowUrl
    ensures WeatherBackground("Thunderstorm") == ThunderstormUrl
    ensures WeatherBackground("Fog") == FogUrl
  {
    assert "Clear" in Backgrounds;
    assert "Clouds" in Backgrounds;
  }

  /** The six photographs are pairwise different, so the background tells
      the listed conditions apart. */
  lemma BackgroundsDistinct(c: string, d: string)
    requires c in Backgrounds && d in Backgrounds && c != d
    ensures WeatherBackground(c) != WeatherBackground(d)
  {
  }

  /** The clear-sky photograph is shown exactly for "Clear" and for every
      condition the record does not list, e.g. "Drizzle", "Mist", "Haze"
      and the empty string. */
  lemma ClearBackgroundIff(condition: string)
    requires condition !in ObjectPrototypeKeys
    ensures WeatherBackground(condition) == ClearUrl <==>
      condition !in {"Clouds", "Rain", "Snow", "Thunderstorm", "Fog"}
  {
  }

  /** The icons the screen draws for a condition. */
  datatype Icon = Sun | Cloud | CloudRain | CloudSnow | CloudLightning | CloudFog

  /** The `case` labels of the switch, each with the icon it draws. */
  const IconCases: map<string, Icon> := map[
    "Clear" := Sun, "Clouds" := Cloud, "Rain" := CloudRain, "Drizzle" := CloudRain,
    "Snow" := CloudSnow, "Thunderstorm" := CloudLightning,
    "Fog" := CloudFog, "Mist" := CloudFog, "Haze" := CloudFog
  ]

  /** `WeatherIcon`: the `switch` over the condition name, with `Sun` as
      its default. A condition with a `case` label draws that label's
      icon and every other condition draws `Sun`. */
  function WeatherIcon(condition: string): (icon: Icon)
    ensures condition in IconCases ==> icon == IconCases[condition]
    ensures condition !in IconCases ==> icon == Sun
  {
    if condition == "Clear" then Sun
    else if condition == "Clouds" then Cloud
    else if condition == "Rain" || condition == "Drizzle" then CloudRain
    else if condition == "Snow" then CloudSnow
    else if condition == "Thunderstorm" then CloudLightning
    else if condition == "Fog" || condition == "Mist" || condition == "Haze" then CloudFog
    else Sun
  }

  /** Which conditions share an icon: rain with drizzle, fog with mist and
      haze, and clear with everything unlisted. */
  lemma IconPreimages(condition: string)
    ensures WeatherIcon(condition) == CloudRain <==> condition in {"Rain", "Drizzle"}
    ensures WeatherIcon(condition) == CloudFog <==> condition in {"Fog", "Mist", "Haze"}
    ensures WeatherIcon(condition) == Sun <==>
      condition !in {"Clouds", "Rain", "Drizzle", "Snow", "Thunderstorm", "Fog", "Mist", "Haze"}
  {
  }

  /** A condition with a photograph of its own never draws the default
      icon; the converse fails for "Drizzle", "Mist" and "Haze", which get
      an icon of their own over the clear-sky photograph. */
  lemma BackgroundAndIcon(condition: string)
    requires condition !in ObjectPrototypeKeys
    ensures WeatherBackground(condition) != ClearUrl ==> WeatherIcon(condition) != Sun
    ensures WeatherBackground("Drizzle") == ClearUrl && WeatherIcon("Drizzle") == CloudRain
  {
    ClearBackgroundIff(condition);
    ClearBackgroundIff("Drizzle");
  }

  /** The eight compass points, clockwise from north. */
  const Directions: seq<string> := ["N", "NE", "E", "SE", "S", "SW", "W", "NW"]

  /** `getWindDirection`: `directions[Math.round(degrees / 45) % 8]`.
      A negative bearing whose rounded sector is not a multiple of eight
      gives a negative index and so `undefined`, which is `None` here. */
  function WindDirection(degrees: real): (point: Option<string>)
    ensures point.Some? ==> point.value in Directions
  {
    var index := Rem(Round(degrees / 45.0), 8);
    if 0 <= index then Some(Directions[index]) else None
  }

  /** Every bearing of at least 0 degrees gets a label: the point whose
      45-degree sector, centred on it and closed on its anticlockwise
      edge, holds the bearing. */
  lemma WindDirectionSector(degrees: real, k: int)
    requires degrees >= 0.0
    requires 45.0 * k as real - 22.5 <= degrees < 45.0 * k as real + 22.5
    ensures WindDirection(degrees) == Some(Directions[k % 8])
  {
    RoundUnique(degrees / 45.0, k);
  }

  /** Every bearing of at least 0 degrees has a compass point. */
  lemma WindDirectionDefined(degrees: real)
    requires degrees >= 0.0
    ensures WindDirection(degrees).Some?
  {
  }

  /** A full turn does not change the label. */
  lemma WindDirectionPeriodic(degrees: real)
    requires degrees >= 0.0
    ensures WindDirection(degrees + 360.0) == WindDirection(degrees)
  {
    var x := degrees / 45.0;
    var k := Round(x);
    assert degrees == 45.0 * x;
    assert 45.0 * k as real - 22.5 <= degrees < 45.0 * k as real + 22.5;
    WindDirectionSector(degrees, k);
    WindDirectionSector(degrees + 360.0, k + 8);
    assert (k + 8) % 8 == k % 8;
  }

  /** A negative bearing has a label exactly when it rounds to a whole
      number of turns, as -360 does; -45, for one, gives `undefined`. */
  lemma NegativeWindDirection(degrees: real)
    requires degrees < 0.0
    ensures WindDirection(degrees).Some? <==> Round(degrees / 45.0) % 8 == 0
  {
  }

  /** For whole degrees the rounding is the integer formula
      `(2d + 45) div 90`. */
  lemma WholeDegreeIndex(d: nat)
    ensures Round(d as real / 45.0) == (2 * d + 45) / 90
  {
    var k := (2 * d + 45) / 90;
    assert 90 * k <= 2 * d + 45 < 90 * k + 90;
    RoundUnique(d as real / 45.0, k);
  }

  /** Sample bearings: 0 and 360 are north, 44 already rounds to north-east,
      as do 45 and 22.5, while 22.4 is still north. */
  lemma WindDirectionExamples()
    ensures WindDirection(0.0) == Some("N")
    ensures WindDirection(360.0) == Some("N")
    ensures WindDirection(44.0) == Some("NE")
    ensures WindDirection(45.0) == Some("NE")
    ensures WindDirection(22.5) == Some("NE")
    ensures WindDirection(22.4) == Some("N")
    ensures WindDirection(-45.0) == None
  {
    WindDirectionSector(0.0, 0);
    WindDirectionSector(360.0, 8);
    WindDirectionSector(44.0, 1);
    WindDirectionSector(45.0, 1);
    WindDirectionSector(22.5, 1);
    WindDirectionSector(22.4, 0);
    RoundUnique(-1.0, -1);
  }
}
