/** The orchestration of `weather_aggregator.rs`: collect the providers that
    answered (OpenWeather first, then Weatherbit), merge them through the
    running mean, and fail with one generic message only when none answered.
    The providers' outcomes arrive already settled; fetching them concurrently
    is not part of this model. */
module WeatherAggregator {
  import opened Wrappers
  import opened Reports
  import opened AverageWeather

  const NO_WEATHER_DATA: string := "Could not find weather data"

  /** The successful outcomes, OpenWeather's first. */
  function Successes<T>(openWeather: Result<T, ClientError>, weatherbit: Result<T, ClientError>): seq<T> {
    (if openWeather.Ok? then [openWeather.value] else [])
    + (if weatherbit.Ok? then [weatherbit.value] else [])
  }

  /** What `get_current_weather` returns for the two providers' outcomes. */
  function CurrentOutcome(openWeather: Result<WeatherReport, ClientError>,
                          weatherbit: Result<WeatherReport, ClientError>): (r: Result<WeatherReport, string>)
    ensures r.Err? <==> openWeather.Err? && weatherbit.Err?
    ensures r.Err? ==> r.error == NO_WEATHER_DATA
    ensures openWeather.Ok? && weatherbit.Err? ==> r == Ok(openWeather.value)
    ensures openWeather.Err? && weatherbit.Ok? ==> r == Ok(weatherbit.value)
    ensures openWeather.Ok? && weatherbit.Ok? ==>
              r == Ok(MeanOf([openWeather.value, weatherbit.value]))
              && r == Ok(MeanOf([weatherbit.value, openWeather.value]))
  {
    var reports := Successes(openWeather, weatherbit);
    if reports == [] then Err(NO_WEATHER_DATA)
    else
      if |reports| == 1 then MeanOfSingle(reports[0]); Ok(MeanOf(reports))
      else
        var a, b := openWeather.value, weatherbit.value;
        assert reports == [a, b];
        assert multiset([a, b]) == multiset([b, a]);
        MeanOfPermutation([a, b], [b, a]);
        Ok(MeanOf(reports))
  }

  /** What `get_forecast_weather` returns for the two providers' outcomes. */
  function ForecastOutcome(openWeather: Result<seq<WeatherReport>, ClientError>,
                           weatherbit: Result<seq<WeatherReport>, ClientError>)
    : (r: Result<seq<WeatherReport>, string>)
    ensures r.Err? <==> openWeather.Err? && weatherbit.Err?
    ensures r.Err? ==> r.error == NO_WEATHER_DATA
    ensures openWeather.Ok? && weatherbit.Err? ==> r == Ok(openWeather.value)
    ensures openWeather.Err? && weatherbit.Ok? ==> r == Ok(weatherbit.value)
    ensures openWeather.Ok? && weatherbit.Ok? ==>
              r.Ok? && |r.value| == Min(|openWeather.value|, |weatherbit.value|)
              && forall i :: 0 <= i < |r.value| ==>
                   r.value[i] == MeanOf([openWeather.value[i], weatherbit.value[i]])
  {
    var series := Successes(openWeather, weatherbit);
    if series == [] then Err(NO_WEATHER_DATA)
    else
      if |series| == 1 then
        assert series == [series[0]];
        PositionalMeanOfOne(series[0]);
        Ok(PositionalMean(series))
      else
        assert series == [openWeather.value, weatherbit.value];
        PositionalMeanOfTwo(openWeather.value, weatherbit.value);
        Ok(PositionalMean(series))
  }

  /** `get_current_weather`, given the settled outcomes of the two providers. */
  method GetCurrentWeather(openWeather: Result<WeatherReport, ClientError>,
                           weatherbit: Result<WeatherReport, ClientError>)
    returns (r: Result<WeatherReport, string>)
    ensures r == CurrentOutcome(openWeather, weatherbit)
  {
    var reports: seq<WeatherReport> := [];
    if openWeather.Ok? {
      reports := reports + [openWeather.value];
    }
    if weatherbit.Ok? {
      reports := reports + [weatherbit.value];
    }
    assert reports == Successes(openWeather, weatherbit);
    if reports != [] {
      var mean := AverageReport(reports);
      r := Ok(mean);
    } else {
      r := Err(NO_WEATHER_DATA);
    }
  }

  /** `get_forecast_weather`. Each provider is given as the outcome it
      settles to when asked for a number of days. */
  method GetForecastWeather(openWeather: nat -> Result<seq<WeatherReport>, ClientError>,
                            weatherbit: nat -> Result<seq<WeatherReport>, ClientError>,
                            daysCount: nat)
    returns (r: Result<seq<WeatherReport>, string>)
    ensures r == ForecastOutcome(openWeather(daysCount), weatherbit(daysCount))
  {
    var openWeatherReport := openWeather(daysCount);
    var weatherbitReport := weatherbit(daysCount);
    var reports: seq<seq<WeatherReport>> := [];
    if openWeatherReport.Ok? {
      reports := reports + [openWeatherReport.value];
    }
    if weatherbitReport.Ok? {
      reports := reports + [weatherbitReport.value];
    }
    assert reports == Successes(openWeatherReport, weatherbitReport);
    if reports != [] {
      var mean := AverageForecastReport(reports);
      r := Ok(mean);
    } else {
      r := Err(NO_WEATHER_DATA);
    }
  }

  /** `get_specific_day_weather`: the forecast for `daysSince + 1` days, and
      its day `daysSince`. Taking that day out of a shorter forecast panics, so
      every provider that answers must return at least `daysSince + 1` days. */
  method GetSpecificDayWeather(openWeather: nat -> Result<seq<WeatherReport>, ClientError>,
                               weatherbit: nat -> Result<seq<WeatherReport>, ClientError>,
                               daysSince: nat)
    returns (r: Result<WeatherReport, string>)
    requires openWeather(daysSince + 1).Ok? ==> |openWeather(daysSince + 1).value| > daysSince
    requires weatherbit(daysSince + 1).Ok? ==> |weatherbit(daysSince + 1).value| > daysSince
    ensures var forecast := ForecastOutcome(openWeather(daysSince + 1), weatherbit(daysSince + 1));
            && (forecast.Err? ==> r == Err(forecast.error))
            && (forecast.Ok? ==> |forecast.value| > daysSince && r == Ok(forecast.value[daysSince]))
  {
    var report := GetForecastWeather(openWeather, weatherbit, daysSince + 1);
    if report.Err? {
      return Err(report.error);
    }
    var days := report.value;
    r := Ok(days[daysSince]);
  }
}
