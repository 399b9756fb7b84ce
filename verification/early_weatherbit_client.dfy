/** The Weatherbit client under `src/weather_clients/weatherbit.rs`: reports
    that carry a temperature only. The current weather is the first element of
    `data`, a forecast is every element of `data`; each element is read at
    `temp`. The HTTP request and the decoding of its body into JSON are the
    parameter `fetch`, keyed by URL. */
module EarlyWeatherbitClient {
  import opened Wrappers
  import opened Json
  import opened Url
  import opened Reports

  const API_PATH_PREFIX: string := "http://api.weatherbit.io/v2.0/"

  datatype Weatherbit = Weatherbit(apiKey: string, apiPathPrefix: string)

  /** `Weatherbit::new`: the public service. Its prefix already ends in `/`,
      so the URLs built from it hold `//` before the endpoint. */
  function New(apiKey: string): (client: Weatherbit)
    ensures client.apiKey == apiKey
    ensures |client.apiPathPrefix| > 0 && client.apiPathPrefix[|client.apiPathPrefix| - 1] == '/'
  {
    Weatherbit(apiKey, API_PATH_PREFIX)
  }

  /** The current-weather URL. */
  function CurrentUrl(client: Weatherbit, city: string): (url: string)
    ensures url == client.apiPathPrefix + "/current" + Query([Param("key", client.apiKey), Param("city", city)])
  {
    CurrentFormat(client.apiPathPrefix, client.apiKey, city);
    client.apiPathPrefix + "/current?key=" + client.apiKey + "&city=" + city
  }

  /** The current-weather format string is the query of its two parameters. */
  lemma CurrentFormat(prefix: string, key: string, city: string)
    ensures prefix + "/current?key=" + key + "&city=" + city
         == prefix + "/current" + Query([Param("key", key), Param("city", city)])
  {
    assert "/current?key=" == "/current" + "?key=";
    ParamAfter("?key=", "?", "key", key);
    ParamAfter("&city=", "&", "city", city);
    Segments2("?key=" + key, "&city=" + city, Param("key", key), Param("city", city));
    Regroup2(prefix, "/current", "?key=", key, "&city=", city);
  }

  /** The forecast URL; the number of days asked for is its `days`
      parameter, in decimal. */
  function ForecastUrl(client: Weatherbit, city: string, daysCount: nat): (url: string)
    ensures url == client.apiPathPrefix + "/forecast/daily"
                   + Query([Param("key", client.apiKey), Param("city", city), Param("days", DecimalString(daysCount))])
  {
    ForecastFormat(client.apiPathPrefix, client.apiKey, city, DecimalString(daysCount));
    client.apiPathPrefix + "/forecast/daily?key=" + client.apiKey + "&city=" + city + "&days=" + DecimalString(daysCount)
  }

  /** The forecast format string is the query of its three parameters. */
  lemma ForecastFormat(prefix: string, key: string, city: string, days: string)
    ensures prefix + "/forecast/daily?key=" + key + "&city=" + city + "&days=" + days
         == prefix + "/forecast/daily" + Query([Param("key", key), Param("city", city), Param("days", days)])
  {
    assert "/forecast/daily?key=" == "/forecast/daily" + "?key=";
    ParamAfter("?key=", "?", "key", key);
    ParamAfter("&city=", "&", "city", city);
    ParamAfter("&days=", "&", "days", days);
    Segments3("?key=" + key, "&city=" + city, "&days=" + days, Param("key", key), Param("city", city), Param("days", days));
    Regroup3(prefix, "/forecast/daily", "?key=", key, "&city=", city, "&days=", days);
  }

  /** The `days` parameter reads back as the count it was built from. */
  lemma ForecastUrlDays(client: Weatherbit, city: string, daysCount: nat)
    ensures var days := DecimalString(daysCount);
            && ForecastUrl(client, city, daysCount)
               == client.apiPathPrefix + "/forecast/daily?key=" + client.apiKey + "&city=" + city + "&days=" + days
            && DecimalValue(days) == daysCount
  {
    DecimalRoundTrip(daysCount);
  }

  const TEMP: seq<Key> := [Name("temp")]
  const DATA: seq<Key> := [Name("data")]
  const FIRST_ENTRY: seq<Key> := [Name("data"), Pos(0)]
  const FIRST_TEMP: seq<Key> := [Name("data"), Pos(0), Name("temp")]

  /** `parse_report_from_weatherbit_json_struct`: a report exactly when
      `temp` is a number, integers included. */
  function ParseEntry(entry: Json): (r: Result<TemperatureReport, ClientError>)
    ensures r.Ok? <==> IsNumber(Lookup(entry, TEMP))
    ensures r.Ok? ==> r.value == TemperatureReport(NumberOf(Lookup(entry, TEMP)))
    ensures r.Err? ==> r.error == WeatherbitParseError
  {
    NumberAt(entry, TEMP);
    var temp := AsF64(Walk(entry, TEMP));
    if temp.Some? then Ok(TemperatureReport(temp.value)) else Err(WeatherbitParseError)
  }

  /** `parse_report_from_raw_json`: the entry at `data[0]`. */
  function ParseCurrent(data: Json): (r: Result<TemperatureReport, ClientError>)
    ensures r.Ok? <==> IsNumber(Lookup(data, FIRST_TEMP))
    ensures r.Ok? ==> r.value == TemperatureReport(NumberOf(Lookup(data, FIRST_TEMP)))
    ensures r.Err? ==> r.error == WeatherbitParseError
  {
    assert FIRST_TEMP == FIRST_ENTRY + TEMP;
    WalkAppend(data, FIRST_ENTRY, TEMP);
    NumberAt(data, FIRST_TEMP);
    NumberAt(Walk(data, FIRST_ENTRY), TEMP);
    ParseEntry(Walk(data, FIRST_ENTRY))
  }

  /** Without a non-empty `data` array there is no current report; with one,
      the report is that of its first entry. */
  lemma CurrentNeedsData(data: Json)
    ensures !IsArray(Lookup(data, DATA)) ==> ParseCurrent(data) == Err(WeatherbitParseError)
    ensures IsArray(Lookup(data, DATA)) && Lookup(data, DATA).value.items == [] ==>
              ParseCurrent(data) == Err(WeatherbitParseError)
    ensures IsArray(Lookup(data, DATA)) && Lookup(data, DATA).value.items != [] ==>
              ParseCurrent(data) == ParseEntry(Lookup(data, DATA).value.items[0])
  {
    WalkIsLookupOrNull(data, FIRST_ENTRY);
    assert Lookup(data, FIRST_ENTRY) == match Child(data, Name("data"))
      case None => None
      case Some(c) => Lookup(c, [Pos(0)]);
    assert FIRST_TEMP[1..] == [Pos(0), Name("temp")];
    if !IsArray(Lookup(data, DATA)) || Lookup(data, DATA).value.items == [] {
      assert Lookup(data, FIRST_TEMP) == None;
    }
  }

  /** `parse_report_array_from_raw_json`: every element of `data`, in order,
      or an error if `data` is not an array or any element does not parse. */
  function ParseArray(data: Json): (r: Result<seq<TemperatureReport>, ClientError>)
    ensures !IsArray(Lookup(data, DATA)) ==> r == Err(WeatherbitParseError)
    ensures IsArray(Lookup(data, DATA)) ==>
              var entries := Lookup(data, DATA).value.items;
              && (r.Ok? <==> forall i :: 0 <= i < |entries| ==> ParseEntry(entries[i]).Ok?)
              && (r.Ok? ==> |r.value| == |entries|
                            && forall i :: 0 <= i < |entries| ==> r.value[i] == ParseEntry(entries[i]).value)
    ensures r.Err? ==> r.error == WeatherbitParseError
  {
    ArrayAt(data, DATA);
    match AsArray(Walk(data, DATA))
    case Some(entries) =>
      var parsed := seq(|entries|, i requires 0 <= i < |entries| => ParseEntry(entries[i]));
      assert forall i :: 0 <= i < |entries| ==> parsed[i] == ParseEntry(entries[i]);
      Collect(parsed)
    case None => Err(WeatherbitParseError)
  }

  /** `get_current`. */
  function GetCurrent(client: Weatherbit, fetch: string -> Result<Json, ClientError>, city: string)
    : (r: Result<TemperatureReport, ClientError>)
    ensures fetch(CurrentUrl(client, city)).Err? ==> r == Err(fetch(CurrentUrl(client, city)).error)
    ensures fetch(CurrentUrl(client, city)).Ok? ==> r == ParseCurrent(fetch(CurrentUrl(client, city)).value)
  {
    match fetch(CurrentUrl(client, city))
    case Err(e) => Err(e)
    case Ok(json) => ParseCurrent(json)
  }

  /** `get_forecast`: whatever series the service sends back, not cut to
      `daysCount` here. */
  function GetForecast(client: Weatherbit, fetch: string -> Result<Json, ClientError>, city: string, daysCount: nat)
    : (r: Result<seq<TemperatureReport>, ClientError>)
    ensures fetch(ForecastUrl(client, city, daysCount)).Err? ==>
              r == Err(fetch(ForecastUrl(client, city, daysCount)).error)
    ensures fetch(ForecastUrl(client, city, daysCount)).Ok? ==>
              r == ParseArray(fetch(ForecastUrl(client, city, daysCount)).value)
  {
    match fetch(ForecastUrl(client, city, daysCount))
    case Err(e) => Err(e)
    case Ok(json) => ParseArray(json)
  }

  // ---------------------------------------------------------------------
  // The documents of the client's unit tests.

  const KAZAN_CURRENT: Json :=
    JObj(map["data" := JArr([JObj(map["ts" := JInt(1613928600), "city_name" := JStr("Kazan"),
                                      "temp" := JInt(-23)])]),
             "count" := JInt(1)])

  const KAZAN_CURRENT_MISNAMED: Json :=
    JObj(map["data" := JArr([JObj(map["ts" := JInt(1613928600), "city_name" := JStr("Kazan"),
                                      "tempo" := JInt(-23)])]),
             "count" := JInt(1)])

  const KAZAN_FORECAST: Json :=
    JObj(map["data" := JArr([JObj(map["ts" := JInt(1613941260), "temp" := JFloat(-27.3)]),
                             JObj(map["ts" := JInt(1614027660), "temp" := JFloat(-29.6)])]),
             "city_name" := JStr("Kazan")])

  const KAZAN_FORECAST_MISNAMED: Json :=
    JObj(map["datas" := JArr([JObj(map["ts" := JInt(1613941260), "temp" := JFloat(-27.3)]),
                              JObj(map["ts" := JInt(1614027660), "temp" := JFloat(-29.6)])]),
             "city_name" := JStr("Kazan")])

  /** An integer temperature is read as a real one; a misnamed one is an error. */
  lemma ParseCurrentExamples()
    ensures ParseCurrent(KAZAN_CURRENT) == Ok(TemperatureReport(-23.0))
    ensures ParseCurrent(KAZAN_CURRENT_MISNAMED) == Err(WeatherbitParseError)
  {
    var entry := KAZAN_CURRENT.fields["data"].items[0];
    assert Lookup(KAZAN_CURRENT, DATA) == Some(JArr([entry]));
    assert Lookup(entry, TEMP) == Some(JInt(-23));
    CurrentNeedsData(KAZAN_CURRENT);
    var bad := KAZAN_CURRENT_MISNAMED.fields["data"].items[0];
    assert Lookup(KAZAN_CURRENT_MISNAMED, DATA) == Some(JArr([bad]));
    assert Lookup(bad, TEMP) == None;
    CurrentNeedsData(KAZAN_CURRENT_MISNAMED);
  }

  lemma ParseArrayExample()
    ensures ParseArray(KAZAN_FORECAST) == Ok([TemperatureReport(-27.3), TemperatureReport(-29.6)])
  {
    var entries := KAZAN_FORECAST.fields["data"].items;
    assert Lookup(KAZAN_FORECAST, DATA) == Some(JArr(entries));
    assert Lookup(entries[0], TEMP) == Some(JFloat(-27.3));
    assert Lookup(entries[1], TEMP) == Some(JFloat(-29.6));
    var r := ParseArray(KAZAN_FORECAST);
    assert |entries| == 2 && r.Ok? && |r.value| == 2;
    assert r.value == [r.value[0], r.value[1]];
  }

  /** A misnamed `data` array is an error. */
  lemma ParseArrayMisnamedExample()
    ensures ParseArray(KAZAN_FORECAST_MISNAMED) == Err(WeatherbitParseError)
  {
    assert Lookup(KAZAN_FORECAST_MISNAMED, DATA) == None;
  }
}
