/** The report types the clients produce and the aggregator merges. */
module Reports {

  /** The aggregator's report: a temperature in degrees Celsius and the Unix
      time of the observation, in seconds. */
  datatype WeatherReport = WeatherReport(temperature: real, unixTimestamp: int)

  /** The report the clients under `src/weather_clients` build: a temperature
      alone. */
  datatype TemperatureReport = TemperatureReport(temperature: real)

  /** Why a client produced no report: the request or the decoding of its
      body failed, or the decoded body lacked a field the client needs. */
  datatype ClientError = TransportError | OpenWeatherParseError | WeatherbitParseError
}
