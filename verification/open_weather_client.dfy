/** The OpenWeather client the aggregator uses
    (`src/weather_aggregator/weather_clients/open_weather.rs`): current weather
    from `main.temp` and `dt`; a forecast from the OneCall `daily[]` series,
    located by the `coord` of the current weather and cut to the days asked for.
    The HTTP request and the decoding of its body into JSON are the parameter
    `fetch`, keyed by URL. */
module OpenWeatherClient {
  import opened Wrappers
  import opened Json
  import opened Url
  import opened Reports

  const API_PATH_PREFIX: string := "http://api.openweathermap.org/data/2.5"

  datatype OpenWeather = OpenWeather(apiKey: string, apiPathPrefix: string)

  /** The current-weather URL, asking for metric units. */
  function CurrentUrl(client: OpenWeather, city: string): (url: string)
    ensures url == client.apiPathPrefix + "/weather"
                   + Query([Param("APPID", client.apiKey), Param("q", city), Param("units", "metric")])
  {
    CurrentFormat(client.apiPathPrefix, client.apiKey, city);
    client.apiPathPrefix + "/weather?APPID=" + client.apiKey + "&q=" + city + "&units=metric"
  }

  /** The current-weather format string is the query of its three parameters. */
  lemma CurrentFormat(prefix: string, key: string, city: string)
    ensures prefix + "/weather?APPID=" + key + "&q=" + city + "&units=metric"
         == prefix + "/weather" + Query([Param("APPID", key), Param("q", city), Param("units", "metric")])
  {
    assert "/weather?APPID=" == "/weather" + "?APPID=";
    ParamAfter("?APPID=", "?", "APPID", key);
    ParamAfter("&q=", "&", "q", city);
    MetricUnits();
    Segments3("?APPID=" + key, "&q=" + city, "&units=metric", Param("APPID", key), Param("q", city), Param("units", "metric"));
    Regroup2Tail(prefix, "/weather", "?APPID=", key, "&q=", city, "&units=metric");
  }

  /** The OneCall URL. `showFloat` is Rust's `{}` rendering of an `f64`. The
      format string has `&&` before `exclude`, an empty parameter. */
  function OneCallUrl(client: OpenWeather, lat: real, lon: real, showFloat: real -> string): (url: string)
    ensures url == client.apiPathPrefix + "/onecall"
                   + Query([Param("APPID", client.apiKey), Param("lat", showFloat(lat)),
                            Param("lon", showFloat(lon)), Param("units", "metric"), "",
                            Param("exclude", "current,minutely,hourly")])
  {
    OneCallFormat(client.apiPathPrefix, client.apiKey, showFloat(lat), showFloat(lon));
    client.apiPathPrefix + "/onecall?APPID=" + client.apiKey + "&lat=" + showFloat(lat) + "&lon=" + showFloat(lon)
    + "&units=metric&&exclude=current,minutely,hourly"
  }

  /** A concatenation helper for `OneCallFormat`: the fixed end of the
      OneCall format string split into `units`, an empty parameter, and the
      start of `exclude`, followed by its value. */
  lemma OneCallTail()
    ensures "&units=metric&&exclude=current,minutely,hourly"
         == "&units=metric" + "&" + "&exclude=" + "current,minutely,hourly"
  {
  }

  /** The OneCall format string is the query of its six parameters. */
  lemma OneCallFormat(prefix: string, key: string, lat: string, lon: string)
    ensures prefix + "/onecall?APPID=" + key + "&lat=" + lat + "&lon=" + lon
            + "&units=metric&&exclude=current,minutely,hourly"
         == prefix + "/onecall"
            + Query([Param("APPID", key), Param("lat", lat), Param("lon", lon), Param("units", "metric"), "",
                     Param("exclude", "current,minutely,hourly")])
  {
    assert "/onecall?APPID=" == "/onecall" + "?APPID=";
    ParamAfter("?APPID=", "?", "APPID", key);
    ParamAfter("&lat=", "&", "lat", lat);
    ParamAfter("&lon=", "&", "lon", lon);
    MetricUnits();
    OneCallTail();
    RegroupEnd("&units=metric", "&", "&exclude=", "current,minutely,hourly");
    assert "&exclude=" == "&" + ("exclude" + "=");
    ParamAfter("&exclude=", "&", "exclude", "current,minutely,hourly");
    assert "&" == "&" + "";
    Segments6("?APPID=" + key, "&lat=" + lat, "&lon=" + lon, "&units=metric", "&", "&exclude=" + "current,minutely,hourly",
              Param("APPID", key), Param("lat", lat), Param("lon", lon), Param("units", "metric"), "",
              Param("exclude", "current,minutely,hourly"));
    Regroup3Tail(prefix, "/onecall", "?APPID=", key, "&lat=", lat, "&lon=", lon,
                 "&units=metric&&exclude=current,minutely,hourly");
  }

  const MAIN_TEMP: seq<Key> := [Name("main"), Name("temp")]
  const TEMP_DAY: seq<Key> := [Name("temp"), Name("day")]
  const DT: seq<Key> := [Name("dt")]
  const DAILY: seq<Key> := [Name("daily")]
  const COORD_LAT: seq<Key> := [Name("coord"), Name("lat")]
  const COORD_LON: seq<Key> := [Name("coord"), Name("lon")]

  /** `parse_report_from_open_weather_current_json_struct`: a report exactly
      when `main.temp` is a number and `dt` an i64; never a partial one. */
  function ParseCurrent(data: Json): (r: Result<WeatherReport, ClientError>)
    ensures r.Ok? <==> IsNumber(Lookup(data, MAIN_TEMP)) && IsI64(Lookup(data, DT))
    ensures r.Ok? ==> r.value == WeatherReport(NumberOf(Lookup(data, MAIN_TEMP)), Lookup(data, DT).value.i)
    ensures r.Err? ==> r.error == OpenWeatherParseError
  {
    NumberAt(data, MAIN_TEMP);
    IntegerAt(data, DT);
    var temp := AsF64(Walk(data, MAIN_TEMP));
    var timestamp := AsI64(Walk(data, DT));
    if temp.Some? && timestamp.Some? then
      Ok(WeatherReport(temp.value, timestamp.value))
    else
      Err(OpenWeatherParseError)
  }

  /** `parse_report_from_open_weather_onecall_json_struct`: one day of the
      OneCall series, from `temp.day` and `dt`. */
  function ParseOneCallDay(data: Json): (r: Result<WeatherReport, ClientError>)
    ensures r.Ok? <==> IsNumber(Lookup(data, TEMP_DAY)) && IsI64(Lookup(data, DT))
    ensures r.Ok? ==> r.value == WeatherReport(NumberOf(Lookup(data, TEMP_DAY)), Lookup(data, DT).value.i)
    ensures r.Err? ==> r.error == OpenWeatherParseError
  {
    NumberAt(data, TEMP_DAY);
    IntegerAt(data, DT);
    var temp := AsF64(Walk(data, TEMP_DAY));
    var timestamp := AsI64(Walk(data, DT));
    if temp.Some? && timestamp.Some? then
      Ok(WeatherReport(temp.value, timestamp.value))
    else
      Err(OpenWeatherParseError)
  }

  /** `parse_report_array_from_raw_json`: every element of `daily`, in order,
      or an error if `daily` is not an array or any element does not parse. */
  function ParseDaily(data: Json): (r: Result<seq<WeatherReport>, ClientError>)
    ensures !IsArray(Lookup(data, DAILY)) ==> r == Err(OpenWeatherParseError)
    ensures IsArray(Lookup(data, DAILY)) ==>
              var days := Lookup(data, DAILY).value.items;
              && (r.Ok? <==> forall i :: 0 <= i < |days| ==> ParseOneCallDay(days[i]).Ok?)
              && (r.Ok? ==> |r.value| == |days|
                            && forall i :: 0 <= i < |days| ==> r.value[i] == ParseOneCallDay(days[i]).value)
    ensures r.Err? ==> r.error == OpenWeatherParseError
  {
    ArrayAt(data, DAILY);
    match AsArray(Walk(data, DAILY))
    case Some(days) =>
      var parsed := seq(|days|, i requires 0 <= i < |days| => ParseOneCallDay(days[i]));
      assert forall i :: 0 <= i < |days| ==> parsed[i] == ParseOneCallDay(days[i]);
      Collect(parsed)
    case None => Err(OpenWeatherParseError)
  }

  /** The coordinates of a current-weather document, when both are numbers. */
  function Coordinates(current: Json): (c: Option<(real, real)>)
    ensures c.Some? <==> IsNumber(Lookup(current, COORD_LAT)) && IsNumber(Lookup(current, COORD_LON))
    ensures c.Some? ==> c.value == (NumberOf(Lookup(current, COORD_LAT)), NumberOf(Lookup(current, COORD_LON)))
  {
    NumberAt(current, COORD_LAT);
    NumberAt(current, COORD_LON);
    var lat := AsF64(Walk(current, COORD_LAT));
    var lon := AsF64(Walk(current, COORD_LON));
    if lat.Some? && lon.Some? then Some((lat.value, lon.value)) else None
  }

  /** `Vec::truncate`: the first `n` elements, or all of them if fewer. */
  function Truncate<T>(s: seq<T>, n: nat): (r: seq<T>)
    ensures |r| == (if |s| <= n then |s| else n)
    ensures r == s[..|r|]
  {
    if |s| <= n then s else s[..n]
  }

  /** `get_current`. */
  function GetCurrent(client: OpenWeather, fetch: string -> Result<Json, ClientError>, city: string)
    : (r: Result<WeatherReport, ClientError>)
    ensures fetch(CurrentUrl(client, city)).Err? ==> r == Err(fetch(CurrentUrl(client, city)).error)
    ensures fetch(CurrentUrl(client, city)).Ok? ==> r == ParseCurrent(fetch(CurrentUrl(client, city)).value)
  {
    match fetch(CurrentUrl(client, city))
    case Err(e) => Err(e)
    case Ok(json) => ParseCurrent(json)
  }

  /** `get_onecall_forecast`: the daily series at the given coordinates. */
  function GetOneCallForecast(client: OpenWeather, fetch: string -> Result<Json, ClientError>,
                              showFloat: real -> string, lat: real, lon: real)
    : (r: Result<seq<WeatherReport>, ClientError>)
    ensures fetch(OneCallUrl(client, lat, lon, showFloat)).Err? ==>
              r == Err(fetch(OneCallUrl(client, lat, lon, showFloat)).error)
    ensures fetch(OneCallUrl(client, lat, lon, showFloat)).Ok? ==>
              r == ParseDaily(fetch(OneCallUrl(client, lat, lon, showFloat)).value)
  {
    match fetch(OneCallUrl(client, lat, lon, showFloat))
    case Err(e) => Err(e)
    case Ok(json) => ParseDaily(json)
  }

  /** `get_forecast`: the current weather's coordinates, then the OneCall
      series there, cut to at most `daysCount` days. */
  function GetForecast(client: OpenWeather, fetch: string -> Result<Json, ClientError>,
                       showFloat: real -> string, city: string, daysCount: nat)
    : (r: Result<seq<WeatherReport>, ClientError>)
    ensures match fetch(CurrentUrl(client, city))
            case Err(e) => r == Err(e)
            case Ok(current) =>
              match Coordinates(current)
              case None => r == Err(OpenWeatherParseError)
              case Some(coord) =>
                match GetOneCallForecast(client, fetch, showFloat, coord.0, coord.1)
                case Err(e) => r == Err(e)
                case Ok(week) =>
                  && r.Ok?
                  && |r.value| == (if |week| <= daysCount then |week| else daysCount)
                  && r.value == week[..|r.value|]
  {
    match fetch(CurrentUrl(client, city))
    case Err(e) => Err(e)
    case Ok(current) =>
      match Coordinates(current)
      case None => Err(OpenWeatherParseError)
      case Some(coord) =>
        match GetOneCallForecast(client, fetch, showFloat, coord.0, coord.1)
        case Err(e) => Err(e)
        case Ok(week) => Ok(Truncate(week, daysCount))
  }

  // ---------------------------------------------------------------------
  // The documents of the client's unit tests.

  const MOSCOW_CURRENT: Json :=
    JObj(map["main" := JObj(map["temp" := JFloat(-12.94)]), "dt" := JInt(1613978904),
             "name" := JStr("Moscow")])

  const MOSCOW_CURRENT_MISNAMED: Json :=
    JObj(map["main" := JObj(map["xtemp" := JFloat(-12.94)]), "dt" := JInt(1613978904),
             "name" := JStr("Moscow")])

  const MOSCOW_DAY_1: Json := JObj(map["temp" := JObj(map["day" := JFloat(-13.45)]), "dt" := JInt(1613984400)])
  const MOSCOW_DAY_1_MISNAMED: Json := JObj(map["temsp" := JObj(map["day" := JFloat(-13.45)]), "dt" := JInt(1613984400)])
  const MOSCOW_DAY_2: Json := JObj(map["temp" := JObj(map["day" := JFloat(-13.21)]), "dt" := JInt(1613995200)])

  const MOSCOW_DAILY: Json := JObj(map["daily" := JArr([MOSCOW_DAY_1, MOSCOW_DAY_2])])
  const MOSCOW_DAILY_MISNAMED: Json := JObj(map["daily" := JArr([MOSCOW_DAY_1_MISNAMED, MOSCOW_DAY_2])])

  lemma ParseCurrentExamples()
    ensures ParseCurrent(MOSCOW_CURRENT) == Ok(WeatherReport(-12.94, 1613978904))
    ensures ParseCurrent(MOSCOW_CURRENT_MISNAMED).Err?
  {
    assert Lookup(MOSCOW_CURRENT, MAIN_TEMP) == Some(JFloat(-12.94));
    assert Lookup(MOSCOW_CURRENT, DT) == Some(JInt(1613978904));
    assert Lookup(MOSCOW_CURRENT_MISNAMED, MAIN_TEMP) == None;
  }

  lemma ParseDayExamples()
    ensures ParseOneCallDay(MOSCOW_DAY_1) == Ok(WeatherReport(-13.45, 1613984400))
    ensures ParseOneCallDay(MOSCOW_DAY_2) == Ok(WeatherReport(-13.21, 1613995200))
  {
    assert Lookup(MOSCOW_DAY_1, TEMP_DAY) == Some(JFloat(-13.45));
    assert Lookup(MOSCOW_DAY_1, DT) == Some(JInt(1613984400));
    assert Lookup(MOSCOW_DAY_2, TEMP_DAY) == Some(JFloat(-13.21));
    assert Lookup(MOSCOW_DAY_2, DT) == Some(JInt(1613995200));
  }

  /** The series parses day by day, in order. */
  lemma ParseDailyExample()
    ensures ParseDaily(MOSCOW_DAILY) == Ok([WeatherReport(-13.45, 1613984400), WeatherReport(-13.21, 1613995200)])
  {
    ParseDayExamples();
    assert Lookup(MOSCOW_DAILY, DAILY) == Some(JArr([MOSCOW_DAY_1, MOSCOW_DAY_2]));
    var r := ParseDaily(MOSCOW_DAILY);
    assert r.Ok? && |r.value| == 2;
    assert r.value == [r.value[0], r.value[1]];
  }

  /** One misnamed day spoils the whole series. */
  lemma ParseDailyMisnamedExample()
    ensures ParseDaily(MOSCOW_DAILY_MISNAMED) == Err(OpenWeatherParseError)
  {
    assert Lookup(MOSCOW_DAY_1_MISNAMED, TEMP_DAY) == None;
    assert Lookup(MOSCOW_DAILY_MISNAMED, DAILY) == Some(JArr([MOSCOW_DAY_1_MISNAMED, MOSCOW_DAY_2]));
  }
}
