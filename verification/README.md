# weather_reports in Dafny

A model of the aggregation core of `weather_reports`, a Rust service that asks
two weather providers (OpenWeather and Weatherbit) for the current weather or a
multi-day forecast of a city and merges whatever they return into a single
report.

- `wrappers.dfy`: `Option` and `Result`, plus `Collect`. `Collect` is Rust's
  `collect` of an iterator of results into a result of a vector: all values, or
  the first error.
- `json.dfy`: the decoded JSON document the clients read, read the way
  serde_json reads it. Indexing `value[key]` never fails, because a missing
  member reads as `null`. Typed reads (`as_f64`, `as_i64`, `as_array`) return
  options. Next to it is a reference reading, `Lookup`, where absence is
  explicit. The parsers' contracts are stated in terms of `Lookup`.
- `url.dfy`: the query strings the clients build, and the decimal rendering of
  a day count.
- `reports.dfy`: the aggregator's report (temperature and Unix timestamp), the
  temperature-only report of the older clients, and the client errors.
- `average_weather.dfy`:
  - the class `AverageWeatherReport`, two running means updated in place by
    `avg += (x - avg) / n`, proved to stay equal to the arithmetic means of
    everything added;
  - `average_report`, a fold of a list of reports through one accumulator;
  - `average_forecast_report`, a fold of several forecast series through one
    accumulator per day, zipped series by series.
- `weather_aggregator.dfy`: `get_current_weather`, `get_forecast_weather` and
  `get_specific_day_weather`. They keep the providers that answered, OpenWeather
  first. They average what those providers returned, and fail with "Could not
  find weather data" only when neither answered.
- `open_weather_client.dfy`: the OpenWeather client the aggregator uses.
  - The current weather comes from `main.temp` and `dt`.
  - The forecast first reads `coord.lat`/`coord.lon` from the current weather.
  - It then fetches the OneCall `daily[]` series there and cuts it to the
    requested number of days.
- `early_weatherbit_client.dfy` and `early_open_weather_client.dfy`: the older
  clients under `src/weather_clients`, which build temperature-only reports.
  - Weatherbit reads `data[0].temp` for the current weather and `data[].temp`
    for a forecast.
  - OpenWeather reads `main.temp` and `list[].main.temp`.

Each client takes the HTTP round trip as a parameter,
`fetch: string -> Result<Json, ClientError>`. It is the decoded answer of the
service to a URL, or the transport error. The aggregator takes the providers'
settled outcomes as parameters. A forecast provider is a function of the day
count it is asked for. The OneCall URL renders latitude and longitude with
Rust's float `Display`, which is the parameter `showFloat`.

Behaviour of the code worth knowing:
- The mean timestamp is converted with `as i64`, which rounds toward zero
  (`TruncateTowardZero`): a mean of -1.5 becomes -1.
- `average_forecast_report` zips series by series, so series of different
  lengths are averaged over the days they all have. Its result is as long as
  the shortest series, and never longer than the first.
- Only the newer OpenWeather client cuts its series, down to the requested
  number of days. The older clients return whatever series the service sends.

## Model

| member | source | states |
|---|---|---|
| Wrappers.Collect | src/weather_aggregator/weather_clients/open_weather.rs:83 | collecting parse results succeeds exactly when every element parsed; then it keeps length and order; otherwise it is the first element's error, and every element before it parsed |
| Json.WalkIsLookupOrNull | src/weather_aggregator/weather_clients/open_weather.rs:39-40 | chained indexing reads exactly the value the path leads to, and `null` as soon as one step is missing |
| Json.WalkAppend | src/weather_clients/weatherbit.rs:61 | indexing `data["data"][0]` and then `["temp"]` is indexing along the whole path |
| Json.NumberAt | src/weather_aggregator/weather_clients/open_weather.rs:100 | `as_f64` on an indexed value succeeds exactly when the path leads to a number (integer or float), and yields it |
| Json.IntegerAt | src/weather_aggregator/weather_clients/open_weather.rs:101 | `as_i64` on an indexed value succeeds exactly when the path leads to an integer in the i64 range, and yields it |
| Json.ArrayAt | src/weather_aggregator/weather_clients/open_weather.rs:81 | `as_array` on an indexed value succeeds exactly when the path leads to an array, and yields its elements |
| Url.Query2 | src/weather_clients/weatherbit.rs:35 | a two-parameter query is `?p0&p1` |
| Url.Query3 | src/weather_aggregator/weather_clients/open_weather.rs:51 | a three-parameter query is `?p0&p1&p2` |
| Url.Query4 | src/weather_clients/open_weather.rs:35 | a four-parameter query is `?p0&p1&p2&p3` |
| Url.Query6 | src/weather_aggregator/weather_clients/open_weather.rs:57 | a six-parameter query is `?p0&p1&p2&p3&p4&p5` |
| Url.DecimalString | src/weather_clients/weatherbit.rs:41-42 | `{}` of a `usize` is a non-empty string of decimal digits without a leading zero |
| Url.DecimalRoundTrip | src/weather_clients/weatherbit.rs:41-42 | the rendered day count reads back as the count |
| AverageWeather.TruncateTowardZero | src/weather_aggregator.rs:30 | `as i64` on the mean timestamp drops the fraction toward zero, for both signs |
| AverageWeather.AverageWeatherReport.constructor | src/weather_aggregator.rs:17-19 | a new accumulator has had nothing added |
| AverageWeather.AverageWeatherReport.Add | src/weather_aggregator.rs:21-25 | adding a report appends it to what the accumulator stands for, and both running means stay the means of everything added |
| AverageWeather.AverageWeatherReport.Mean | src/weather_aggregator.rs:27-32 | the read-out is the arithmetic mean temperature, and the arithmetic mean timestamp rounded toward zero, of everything added |
| AverageWeather.IncrementalMean | src/weather_aggregator.rs:21-23 | the update `avg += (x - avg) / n` turns the mean of n-1 values into the mean of n |
| AverageWeather.MeanStep | src/weather_aggregator.rs:23 | moving the mean of n values by `(x - mean) / (n + 1)` gives the mean of the n + 1 values |
| AverageWeather.TruncateInteger | src/weather_aggregator.rs:30 | casting a whole timestamp mean back to an integer loses nothing |
| AverageWeather.MeanOfSingle | src/weather_aggregator.rs:161-170 | the mean of one report is that report, timestamp included |
| AverageWeather.SumOfCopies | src/weather_aggregator.rs:21-23 | n copies of a value sum to n times it |
| AverageWeather.MeanOfCopies | src/weather_aggregator.rs:21-32 | the mean of n > 0 copies of a report is that report |
| AverageWeather.SumPermutation | src/weather_aggregator.rs:118-126 | sums do not depend on the order of the reports |
| AverageWeather.MeanOfPermutation | src/weather_aggregator.rs:118-126 | the mean report depends only on the multiset of reports, not on their order |
| AverageWeather.MeanOfPair | src/weather_aggregator.rs:44-52 | two reports average to the midpoint temperature and the midpoint timestamp rounded toward zero |
| AverageWeather.MeanOfFourReports | src/weather_aggregator.rs:147-159 | (2,10),(4,20),(2,10),(8,20) average to (4.0, 15) |
| AverageWeather.AverageReport | src/weather_aggregator.rs:118-126 | folding the reports through one fresh accumulator yields their mean report |
| AverageWeather.ZipLength | src/weather_aggregator.rs:129-137 | zipping `start` accumulators with each series in turn leaves no more than `start` and no more than any series length |
| AverageWeather.ZipLengthIsALength | src/weather_aggregator.rs:129-137 | that length is `start` or the length of one of the series, so it is their minimum |
| AverageWeather.PositionalMean | src/weather_aggregator.rs:128-141 | the averaged forecast is no longer than any series, and exactly as long as one of them |
| AverageWeather.NewAverages | src/weather_aggregator.rs:129 | `n` distinct fresh accumulators with nothing added |
| AverageWeather.ZipAdd | src/weather_aggregator.rs:133-136 | zipping accumulators with a series keeps the first min(lengths) accumulators, and each has that day's report added |
| AverageWeather.ColumnGrows | src/weather_aggregator.rs:132-137 | one more series adds its day-`j` report to the end of day `j`'s column |
| AverageWeather.FoldSeries | src/weather_aggregator.rs:130-137 | folding in series k keeps a prefix of the accumulators, distinct, each holding exactly its day's column of series 0..k |
| AverageWeather.ReadMeans | src/weather_aggregator.rs:138-140 | reading the accumulators gives each one's mean report, in order |
| AverageWeather.AverageForecastReport | src/weather_aggregator.rs:128-141 | the folded forecast is, day by day, the mean of every series' report for that day, over the days all series have |
| AverageWeather.PositionalMeanOfOne | src/weather_aggregator.rs:207-222 | a single series comes back unchanged |
| AverageWeather.PositionalMeanOfTwo | src/weather_aggregator.rs:128-141 | two series give min(lengths) days, each the mean of the two reports for that day |
| AverageWeather.PositionalMeanOfFourSeries | src/weather_aggregator.rs:172-205 | the four three-day series average to (5,10),(4,15),(3.5,20) |
| AverageWeather.PositionalMeanOfTwoSeries | src/weather_aggregator.rs:128-141 | (4,10),(4,10),(2,10) and (6,10),(4,20),(6,20) average to (5,10),(4,15),(4,15) |
| WeatherAggregator.CurrentOutcome | src/weather_aggregator.rs:35-56 | failure exactly when both providers failed, with the one generic message; a lone success is returned unchanged; two successes give their mean, in either order |
| WeatherAggregator.ForecastOutcome | src/weather_aggregator.rs:58-79 | failure exactly when both failed; a lone series is returned unchanged; two series give min(lengths) days of pairwise means |
| WeatherAggregator.GetCurrentWeather | src/weather_aggregator.rs:35-56 | pushing the successes in order and averaging them gives `CurrentOutcome` |
| WeatherAggregator.GetForecastWeather | src/weather_aggregator.rs:58-79 | both providers are asked for the same day count, and the result is `ForecastOutcome` of their answers |
| WeatherAggregator.GetSpecificDayWeather | src/weather_aggregator.rs:81-84 | asks for `d + 1` days; a forecast error comes back unchanged, otherwise the result is day `d` of that forecast |
| OpenWeatherClient.CurrentUrl | src/weather_aggregator/weather_clients/open_weather.rs:50-52 | the URL is the prefix, `/weather`, and the query `APPID=key&q=city&units=metric` |
| OpenWeatherClient.CurrentFormat | src/weather_aggregator/weather_clients/open_weather.rs:51 | for any prefix, key and city, the current-weather format string is the prefix, `/weather` and the query of its three parameters |
| OpenWeatherClient.OneCallUrl | src/weather_aggregator/weather_clients/open_weather.rs:56-58 | the URL is the prefix, `/onecall`, and the query `APPID`, `lat`, `lon`, `units=metric`, an empty parameter, and `exclude=current,minutely,hourly` |
| OpenWeatherClient.OneCallFormat | src/weather_aggregator/weather_clients/open_weather.rs:57 | for any prefix, key and coordinate renderings, the OneCall format string is the prefix, `/onecall` and the query of its six parameters |
| OpenWeatherClient.ParseCurrent | src/weather_aggregator/weather_clients/open_weather.rs:99-107 | a report exactly when `main.temp` is a number and `dt` an i64, holding those two values; otherwise the parse error and never a partial report |
| OpenWeatherClient.ParseOneCallDay | src/weather_aggregator/weather_clients/open_weather.rs:89-97 | a report exactly when `temp.day` is a number and `dt` an i64, holding those two values; otherwise the parse error |
| OpenWeatherClient.ParseDaily | src/weather_aggregator/weather_clients/open_weather.rs:80-87 | an error when `daily` is missing or not an array; otherwise all-or-nothing, keeping the length and order of `daily` |
| OpenWeatherClient.Coordinates | src/weather_aggregator/weather_clients/open_weather.rs:39-41 | coordinates exactly when `coord.lat` and `coord.lon` are both numbers |
| OpenWeatherClient.Truncate | src/weather_aggregator/weather_clients/open_weather.rs:43 | the first `n` elements, or the whole series when it is shorter |
| OpenWeatherClient.GetCurrent | src/weather_aggregator/weather_clients/open_weather.rs:32-35 | a fetch error comes back unchanged; otherwise the current document is parsed |
| OpenWeatherClient.GetOneCallForecast | src/weather_aggregator/weather_clients/open_weather.rs:56-61 | a fetch error comes back unchanged; otherwise the daily series is parsed |
| OpenWeatherClient.GetForecast | src/weather_aggregator/weather_clients/open_weather.rs:37-48 | fetch errors propagate, missing coordinates are a parse error, and a OneCall series is cut to a prefix of length min(series, days) |
| OpenWeatherClient.ParseCurrentExamples | src/weather_aggregator/weather_clients/open_weather.rs:117-152 | the Moscow document gives (-12.94, 1613978904); with `xtemp` it is an error |
| OpenWeatherClient.ParseDayExamples | src/weather_aggregator/weather_clients/open_weather.rs:155-183 | each Moscow day gives its `temp.day` and `dt` |
| OpenWeatherClient.ParseDailyExample | src/weather_aggregator/weather_clients/open_weather.rs:155-183 | the two-day Moscow series parses in order to (-13.45, 1613984400), (-13.21, 1613995200) |
| OpenWeatherClient.ParseDailyMisnamedExample | src/weather_aggregator/weather_clients/open_weather.rs:185-211 | with one day's `temp` misnamed `temsp` the whole series is the parse error |
| EarlyWeatherbitClient.New | src/weather_clients/weatherbit.rs:21-27 | the public client keeps the key, and its prefix ends in `/` |
| EarlyWeatherbitClient.CurrentUrl | src/weather_clients/weatherbit.rs:34-35 | the URL is the prefix, `/current`, and the query `key=key&city=city` |
| EarlyWeatherbitClient.ForecastUrl | src/weather_clients/weatherbit.rs:40-42 | the URL is the prefix, `/forecast/daily`, and the query `key`, `city`, `days=<count>` |
| EarlyWeatherbitClient.CurrentFormat | src/weather_clients/weatherbit.rs:35 | for any prefix, key and city, the format string is the prefix, `/current` and the query of its two parameters |
| EarlyWeatherbitClient.ForecastFormat | src/weather_clients/weatherbit.rs:41 | for any prefix, key, city and day string, the format string is the prefix, `/forecast/daily` and the query of its three parameters |
| EarlyWeatherbitClient.ForecastUrlDays | src/weather_clients/weatherbit.rs:41-42 | the URL ends in `&days=` and a rendering that reads back as the day count |
| EarlyWeatherbitClient.ParseEntry | src/weather_clients/weatherbit.rs:73-80 | a report exactly when `temp` is a number (an integer counts), holding it; otherwise the parse error |
| EarlyWeatherbitClient.ParseCurrent | src/weather_clients/weatherbit.rs:60-62 | a report exactly when `data[0].temp` is a number, holding it; otherwise the parse error |
| EarlyWeatherbitClient.CurrentNeedsData | src/weather_clients/weatherbit.rs:60-62 | a missing, non-array or empty `data` is a parse error; otherwise the report is that of `data`'s first entry |
| EarlyWeatherbitClient.ParseArray | src/weather_clients/weatherbit.rs:64-71 | an error when `data` is not an array; otherwise all-or-nothing, keeping the length and order of `data` |
| EarlyWeatherbitClient.GetCurrent | src/weather_clients/weatherbit.rs:34-38 | a fetch error comes back unchanged; otherwise `data[0]` is parsed |
| EarlyWeatherbitClient.GetForecast | src/weather_clients/weatherbit.rs:40-45 | a fetch error comes back unchanged; otherwise the whole `data` series is parsed, with no cut to the day count |
| EarlyWeatherbitClient.ParseCurrentExamples | src/weather_clients/weatherbit.rs:90-130 | the integer temperature -23 is read as -23.0; with `tempo` it is an error |
| EarlyWeatherbitClient.ParseArrayExample | src/weather_clients/weatherbit.rs:133-156 | the Kazan series gives -27.3 then -29.6 |
| EarlyWeatherbitClient.ParseArrayMisnamedExample | src/weather_clients/weatherbit.rs:158-181 | the same series under `datas` is the parse error |
| EarlyOpenWeatherClient.CurrentUrl | src/weather_clients/open_weather.rs:27-29 | the URL is the fixed prefix, `/weather`, and the query `APPID=key&q=city&units=metric` |
| EarlyOpenWeatherClient.ForecastUrl | src/weather_clients/open_weather.rs:34-36 | the URL is the fixed prefix, `/forecast`, and the query `APPID`, `q`, `cnt=<count>`, `units=metric` |
| EarlyOpenWeatherClient.ForecastFormat | src/weather_clients/open_weather.rs:35 | for any prefix, key, city and count string, the format string is the prefix, `/forecast` and the query of its four parameters |
| EarlyOpenWeatherClient.ForecastUrlCount | src/weather_clients/open_weather.rs:35-36 | the `cnt` value reads back as the day count |
| EarlyOpenWeatherClient.ParseReport | src/weather_clients/open_weather.rs:67-74 | a report exactly when `main.temp` is a number, holding it; otherwise the parse error |
| EarlyOpenWeatherClient.ParseReportReadsOnlyTemperature | src/weather_clients/open_weather.rs:67-74 | documents that agree on `main.temp` parse alike: `dt` and everything else are ignored |
| EarlyOpenWeatherClient.ParseList | src/weather_clients/open_weather.rs:58-65 | an error when `list` is missing or not an array; otherwise all-or-nothing, keeping the length and order of `list` |
| EarlyOpenWeatherClient.GetCurrent | src/weather_clients/open_weather.rs:27-32 | a fetch error comes back unchanged; otherwise the whole document is parsed as one report |
| EarlyOpenWeatherClient.GetForecast | src/weather_clients/open_weather.rs:34-39 | a fetch error comes back unchanged; otherwise the whole `list` series is parsed, with no cut to the day count |
| EarlyOpenWeatherClient.ParseReportExamples | src/weather_clients/open_weather.rs:82-120 | the Moscow document gives -12.94; with `xtemp` it is an error |
| EarlyOpenWeatherClient.ParseListExample | src/weather_clients/open_weather.rs:123-152 | the two-entry series gives -13.45 then -13.21 |
| EarlyOpenWeatherClient.ParseListMisnamedExample | src/weather_clients/open_weather.rs:154-183 | with one entry's `temp` misnamed `temsp` the whole series is the parse error |

## Left out

- HTTP: building a `reqwest` client, sending, status codes and decoding the body are the `fetch` parameter (`get_raw`). The mock-server tests are not modelled.
- Concurrency: the two provider calls under `futures::join!` are modelled as two settled outcomes. The mean does not depend on their order (`MeanOfPermutation`).
- Configuration: the API keys are read from the environment with `unwrap` (`src/weather_aggregator.rs:110-116`). Here the keys are plain parameters.
- Text decoding: serde_json's decoding of text into a `Value` is not modelled. The model starts from the `Json` datatype.
- Floating point: temperatures and means are exact `real`s. The f64 rounding of the running mean and the exactness of `as_f64` on large integers are not modelled.
- AverageWeather.AverageWeatherReport.Mean: the saturation of `as i64` at the i64 bounds is not modelled, because the mean of i64 timestamps always lies within them.
- AverageWeather.AverageWeatherReport.Mean: the read-out of an empty accumulator is assumed to be (0.0, 0), a running mean that starts at 0. That value is decided inside the external `average` crate, which is not part of this model. No caller in `src/weather_aggregator.rs` reads an empty accumulator.
- AverageWeather.AverageWeatherReport.Add: the `u64` count of the running mean is an unbounded `nat`, so overflow is not modelled.
- WeatherAggregator.GetSpecificDayWeather: it requires each answering provider to return more than `d` days. The source's `remove` panics on a shorter forecast. The `usize` overflow of `d + 1` is not modelled.
- OpenWeatherClient.OneCallUrl: the `Display` rendering of `f64` coordinates is the parameter `showFloat`, not a formatter.
- Error messages: the `Display` texts of the parse errors are left out. An error is its kind.
- Only the aggregator's own clients feed `get_*_weather`. The older clients are modelled on their own, with the temperature-only report they build.
- Outside the core: `src/handlers.rs`, `src/lib.rs`, `src/main.rs` and `tests/integration.rs` (routing, server bootstrap, a live test) are not part of this model.
