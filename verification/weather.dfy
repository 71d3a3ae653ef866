/** The weather tool `get_weather_forecast(location)`: resolve a target
    (geocode a city name, or fall back to the home coordinates) and then read
    the forecast there. The geocoding and forecast services and the process
    environment are inputs. */
module Weather {
  import opened Results
  import opened Text

  const DefaultHomeLat: string := "45.1839"
  const DefaultHomeLon: string := "5.7089"
  const HomeName: string := "votre domicile"

  /** One geocoding hit. */
  datatype Place = Place(latitude: string, longitude: string, name: string)

  /** What the geocoding request gave: a reply with a "results" list, a reply
      without one, or an exception (network or JSON). */
  datatype Geocoding = Results(places: seq<Place>) | NoResults | GeocodingFailed(error: string)

  /** What the forecast request gave: the three temperatures, or an
      exception (network, JSON, or a missing field). Temperatures are kept as
      the service's text. */
  datatype Forecast = Reading(current: string, min: string, max: string) | ForecastFailed(error: string)

  /** The world the tool sees: `HOME_LAT` and `HOME_LON` from the process
      environment (absent or set), and the two web services. */
  datatype WeatherEnv = WeatherEnv(
    homeLat: Option<string>,
    homeLon: Option<string>,
    geocode: string -> Geocoding,
    forecast: (string, string) -> Forecast)

  /** Where the forecast is read. */
  datatype Target = Target(lat: string, lon: string, city: string)

  /** The tool's result, before JSON or message rendering. */
  datatype WeatherReport =
    | Report(locationFound: string, current: string, min: string, max: string)
    | CityNotFound(location: string)
    | GeocodingError(error: string)
    | ServiceError(error: string)

  const IndexError: string := "list index out of range"

  /** `os.getenv(name, default)`: a set variable wins, even when empty. */
  function GetEnv(v: Option<string>, default: string): string
  {
    match v
    case Some(s) => s
    case None => default
  }

  /** The home target, from the environment or the built-in defaults. */
  function HomeTarget(env: WeatherEnv): (t: Target)
    ensures env.homeLat.None? ==> t.lat == DefaultHomeLat
    ensures env.homeLon.None? ==> t.lon == DefaultHomeLon
    ensures env.homeLat.Some? ==> t.lat == env.homeLat.value
    ensures env.homeLon.Some? ==> t.lon == env.homeLon.value
    ensures t.city == HomeName
  {
    Target(GetEnv(env.homeLat, DefaultHomeLat), GetEnv(env.homeLon, DefaultHomeLon), HomeName)
  }

  /** The tool geocodes only a location that is present and not blank. */
  predicate Geocodes(location: Option<string>)
  {
    location.Some? && location.value != "" && Strip(location.value) != ""
  }

  /** Step 1 of the tool: the target, or the report it returns early. The
      home target is used exactly when the location is not geocoded; a
      geocoded location gives a target exactly when the reply has a first
      hit, and the target is that hit. */
  function Locate(location: Option<string>, env: WeatherEnv): (r: Result<Target, WeatherReport>)
    ensures !Geocodes(location) ==> r == Success(HomeTarget(env))
    ensures Geocodes(location) ==>
              (r.Success? <==> env.geocode(location.value).Results? && |env.geocode(location.value).places| > 0)
    ensures Geocodes(location) && r.Success? ==>
              var p := env.geocode(location.value).places[0];
              r.value == Target(p.latitude, p.longitude, p.name)
  {
    if Geocodes(location) then
      match env.geocode(location.value)
      case Results(places) =>
        if |places| == 0 then Failure(GeocodingError(IndexError))
        else Success(Target(places[0].latitude, places[0].longitude, places[0].name))
      case NoResults => Failure(CityNotFound(location.value))
      case GeocodingFailed(e) => Failure(GeocodingError(e))
    else
      Success(HomeTarget(env))
  }

  /** `get_weather_forecast(location)`: "city not found" exactly when a
      geocoded location gets a reply without results, a geocoding error
      exactly when the geocoding request raised or its result list is empty,
      and otherwise the forecast service's reading or error at the located
      target, under the target's name. */
  function GetWeatherForecast(location: Option<string>, env: WeatherEnv): (r: WeatherReport)
    ensures r.CityNotFound? <==> Geocodes(location) && env.geocode(location.value).NoResults?
    ensures r.CityNotFound? ==> r.location == location.value
    ensures r.GeocodingError? <==>
              Geocodes(location) && (env.geocode(location.value).GeocodingFailed? || env.geocode(location.value) == Results([]))
    ensures (r.Report? || r.ServiceError?) <==> Locate(location, env).Success?
    ensures Locate(location, env).Success? ==>
              var t := Locate(location, env).value;
              r == match env.forecast(t.lat, t.lon)
                   case Reading(c, lo, hi) => Report(t.city, c, lo, hi)
                   case ForecastFailed(e) => ServiceError(e)
  {
    match Locate(location, env)
    case Failure(report) => report
    case Success(t) =>
      match env.forecast(t.lat, t.lon)
      case Reading(current, min, max) => Report(t.city, current, min, max)
      case ForecastFailed(e) => ServiceError(e)
  }

  /** Without a location, or with a blank one, the tool reads the forecast
      at the home coordinates under the name "votre domicile", and the
      geocoding service plays no part in the result. */
  lemma BlankLocationUsesHome(location: Option<string>, env: WeatherEnv, other: string -> Geocoding)
    requires location.None? || AllSpace(location.value)
    ensures !Geocodes(location)
    ensures GetWeatherForecast(location, env) == GetWeatherForecast(location, env.(geocode := other))
    ensures var home := HomeTarget(env);
            GetWeatherForecast(location, env) ==
              match env.forecast(home.lat, home.lon)
              case Reading(c, lo, hi) => Report(HomeName, c, lo, hi)
              case ForecastFailed(e) => ServiceError(e)
  {
    if location.Some? {
      StripEmptyIff(location.value);
    }
  }

  /** With a non-blank location the home coordinates are not used: the
      forecast is read where geocoding's first hit lies; a reply without
      results ends the call with "city not found", and a geocoding exception
      or an empty result list with a geocoding error. */
  lemma NamedLocationGeocodes(location: string, env: WeatherEnv)
    requires !AllSpace(location)
    ensures Geocodes(Some(location))
    ensures env.geocode(location).NoResults? ==> GetWeatherForecast(Some(location), env) == CityNotFound(location)
    ensures env.geocode(location).GeocodingFailed? ==>
              GetWeatherForecast(Some(location), env) == GeocodingError(env.geocode(location).error)
    ensures env.geocode(location) == Results([]) ==> GetWeatherForecast(Some(location), env) == GeocodingError(IndexError)
    ensures env.geocode(location).Results? && |env.geocode(location).places| > 0 ==>
              var p := env.geocode(location).places[0];
              GetWeatherForecast(Some(location), env) ==
                match env.forecast(p.latitude, p.longitude)
                case Reading(c, lo, hi) => Report(p.name, c, lo, hi)
                case ForecastFailed(e) => ServiceError(e)
  {
    StripEmptyIff(location);
  }
}
