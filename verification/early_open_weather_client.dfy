/** The OpenWeather client under `src/weather_clients/open_weather.rs`:
    reports that carry a temperature only, read at `main.temp` of the
    current-weather document and of every element of a forecast's `list`.
    The service address is fixed. The HTTP request and the decoding of its
    body into JSON are the parameter `fetch`, keyed by URL. */
module EarlyOpenWeatherClient {
  import opened Wrappers
  import opened Json
  import opened Url
  import opened Reports
  import OpenWeatherClient

  const API_PATH_PREFIX: string := "http://api.openweathermap.org/data/2.5"

  datatype OpenWeather = OpenWeather(apiKey: string)

  /** The current-weather URL, asking for metric units; its format string is
      that of the newer client. */
  function CurrentUrl(client: OpenWeather, city: string): (url: string)
    ensures url == API_PATH_PREFIX + "/weather"
                   + Query([Param("APPID", client.apiKey), Param("q", city), Param("units", "metric")])
  {
    OpenWeatherClient.CurrentFormat(API_PATH_PREFIX, client.apiKey, city);
    API_PATH_PREFIX + "/weather?APPID=" + client.apiKey + "&q=" + city + "&units=metric"
  }

  /** The forecast URL; the number of days asked for is its `cnt`
      parameter, in decimal. */
  function ForecastUrl(client: OpenWeather, city: string, daysCount: nat): (url: string)
    ensures url == API_PATH_PREFIX + "/forecast"
                   + Query([Param("APPID", client.apiKey), Param("q", city), Param("cnt", DecimalString(daysCount)),
                            Param("units", "metric")])
  {
    ForecastFormat(API_PATH_PREFIX, client.apiKey, city, DecimalString(daysCount));
    API_PATH_PREFIX + "/forecast?APPID=" + client.apiKey + "&q=" + city + "&cnt=" + DecimalString(daysCount)
    + "&units=metric"
  }

  /** The forecast format string is the query of its four parameters. */
  lemma ForecastFormat(prefix: string, key: string, city: string, cnt: string)
    ensures prefix + "/forecast?APPID=" + key + "&q=" + city + "&cnt=" + cnt + "&units=metric"
         == prefix + "/forecast" + Query([Param("APPID", key), Param("q", city), Param("cnt", cnt), Param("units", "metric")])
  {
    assert "/forecast?APPID=" == "/forecast" + "?APPID=";
    ParamAfter("?APPID=", "?", "APPID", key);
    ParamAfter("&q=", "&", "q", city);
    ParamAfter("&cnt=", "&", "cnt", cnt);
    MetricUnits();
    Segments4("?APPID=" + key, "&q=" + city, "&cnt=" + cnt, "&units=metric",
              Param("APPID", key), Param("q", city), Param("cnt", cnt), Param("units", "metric"));
    Regroup3Tail(prefix, "/forecast", "?APPID=", key, "&q=", city, "&cnt=", cnt, "&units=metric");
  }

  /** The `cnt` parameter reads back as the count it was built from. */
  lemma ForecastUrlCount(client: OpenWeather, city: string, daysCount: nat)
    ensures var cnt := DecimalString(daysCount);
            && ForecastUrl(client, city, daysCount)
               == API_PATH_PREFIX + "/forecast?APPID=" + client.apiKey + "&q=" + city + "&cnt=" + cnt + "&units=metric"
            && DecimalValue(cnt) == daysCount
  {
    DecimalRoundTrip(daysCount);
  }

  const MAIN_TEMP: seq<Key> := [Name("main"), Name("temp")]
  const LIST: seq<Key> := [Name("list")]

  /** `parse_report_from_open_weather_json_struct`: a report exactly when
      `main.temp` is a number; `dt` plays no part. */
  function ParseReport(data: Json): (r: Result<TemperatureReport, ClientError>)
    ensures r.Ok? <==> IsNumber(Lookup(data, MAIN_TEMP))
    ensures r.Ok? ==> r.value == TemperatureReport(NumberOf(Lookup(data, MAIN_TEMP)))
    ensures r.Err? ==> r.error == OpenWeatherParseError
  {
    NumberAt(data, MAIN_TEMP);
    var temp := AsF64(Walk(data, MAIN_TEMP));
    if temp.Some? then Ok(TemperatureReport(temp.value)) else Err(OpenWeatherParseError)
  }

  /** Two documents that agree on `main.temp` parse alike, whatever else
      (`dt` included) they hold. */
  lemma ParseReportReadsOnlyTemperature(a: Json, b: Json)
    requires Lookup(a, MAIN_TEMP) == Lookup(b, MAIN_TEMP)
    ensures ParseReport(a) == ParseReport(b)
  {
  }

  /** `parse_report_array_from_raw_json`: every element of `list`, in order,
      or an error if `list` is not an array or any element does not parse. */
  function ParseList(data: Json): (r: Result<seq<TemperatureReport>, ClientError>)
    ensures !IsArray(Lookup(data, LIST)) ==> r == Err(OpenWeatherParseError)
    ensures IsArray(Lookup(data, LIST)) ==>
              var entries := Lookup(data, LIST).value.items;
              && (r.Ok? <==> forall i :: 0 <= i < |entries| ==> ParseReport(entries[i]).Ok?)
              && (r.Ok? ==> |r.value| == |entries|
                            && forall i :: 0 <= i < |entries| ==> r.value[i] == ParseReport(entries[i]).value)
    ensures r.Err? ==> r.error == OpenWeatherParseError
  {
    ArrayAt(data, LIST);
    match AsArray(Walk(data, LIST))
    case Some(entries) =>
      var parsed := seq(|entries|, i requires 0 <= i < |entries| => ParseReport(entries[i]));
      assert forall i :: 0 <= i < |entries| ==> parsed[i] == ParseReport(entries[i]);
      Collect(parsed)
    case None => Err(OpenWeatherParseError)
  }

  /** `get_current`: the whole document is one report. */
  function GetCurrent(client: OpenWeather, fetch: string -> Result<Json, ClientError>, city: string)
    : (r: Result<TemperatureReport, ClientError>)
    ensures fetch(CurrentUrl(client, city)).Err? ==> r == Err(fetch(CurrentUrl(client, city)).error)
    ensures fetch(CurrentUrl(client, city)).Ok? ==> r == ParseReport(fetch(CurrentUrl(client, city)).value)
  {
    match fetch(CurrentUrl(client, city))
    case Err(e) => Err(e)
    case Ok(json) => ParseReport(json)
  }

  /** `get_forecast`: whatever series the service sends back, not cut to
      `daysCount` here. */
  function GetForecast(client: OpenWeather, fetch: string -> Result<Json, ClientError>, city: string, daysCount: nat)
    : (r: Result<seq<TemperatureReport>, ClientError>)
    ensures fetch(ForecastUrl(client, city, daysCount)).Err? ==>
              r == Err(fetch(ForecastUrl(client, city, daysCount)).error)
    ensures fetch(ForecastUrl(client, city, daysCount)).Ok? ==>
              r == ParseList(fetch(ForecastUrl(client, city, daysCount)).value)
  {
    match fetch(ForecastUrl(client, city, daysCount))
    case Err(e) => Err(e)
    case Ok(json) => ParseList(json)
  }

  // ---------------------------------------------------------------------
  // The documents of the client's unit tests.

  const MOSCOW_CURRENT: Json :=
    JObj(map["main" := JObj(map["temp" := JFloat(-12.94)]), "dt" := JInt(1613978904),
             "name" := JStr("Moscow")])

  const MOSCOW_CURRENT_MISNAMED: Json :=
    JObj(map["main" := JObj(map["xtemp" := JFloat(-12.94)]), "dt" := JInt(1613978904),
             "name" := JStr("Moscow")])

  const MOSCOW_FORECAST: Json :=
    JObj(map["list" := JArr([
      JObj(map["main" := JObj(map["temp" := JFloat(-13.45)]), "dt" := JInt(1613984400)]),
      JObj(map["main" := JObj(map["temp" := JFloat(-13.21)]), "dt" := JInt(1613995200)])]),
             "city" := JObj(map["name" := JStr("Moscow")])])

  const MOSCOW_FORECAST_MISNAMED: Json :=
    JObj(map["list" := JArr([
      JObj(map["main" := JObj(map["temsp" := JFloat(-13.45)]), "dt" := JInt(1613984400)]),
      JObj(map["main" := JObj(map["temp" := JFloat(-13.21)]), "dt" := JInt(1613995200)])]),
             "city" := JObj(map["name" := JStr("Moscow")])])

  lemma ParseReportExamples()
    ensures ParseReport(MOSCOW_CURRENT) == Ok(TemperatureReport(-12.94))
    ensures ParseReport(MOSCOW_CURRENT_MISNAMED) == Err(OpenWeatherParseError)
  {
    assert Lookup(MOSCOW_CURRENT, MAIN_TEMP) == Some(JFloat(-12.94));
    assert Lookup(MOSCOW_CURRENT_MISNAMED, MAIN_TEMP) == None;
  }

  lemma ParseListExample()
    ensures ParseList(MOSCOW_FORECAST) == Ok([TemperatureReport(-13.45), TemperatureReport(-13.21)])
  {
    var entries := MOSCOW_FORECAST.fields["list"].items;
    assert Lookup(MOSCOW_FORECAST, LIST) == Some(JArr(entries));
    assert Lookup(entries[0], MAIN_TEMP) == Some(JFloat(-13.45));
    assert Lookup(entries[1], MAIN_TEMP) == Some(JFloat(-13.21));
    var r := ParseList(MOSCOW_FORECAST);
    assert |entries| == 2 && r.Ok? && |r.value| == 2;
    assert r.value == [r.value[0], r.value[1]];
  }

  /** One misnamed element spoils the whole series. */
  lemma ParseListMisnamedExample()
    ensures ParseList(MOSCOW_FORECAST_MISNAMED) == Err(OpenWeatherParseError)
  {
    var bad := MOSCOW_FORECAST_MISNAMED.fields["list"].items;
    assert Lookup(MOSCOW_FORECAST_MISNAMED, LIST) == Some(JArr(bad));
    assert Lookup(bad[0], MAIN_TEMP) == None;
  }
}
