/** The weather providers' replies, the intermediate `weather` object both
    weather fetchers build from them, and the report they return.

    A reply is reduced to the fields the fetchers read. A daily series is
    the list of days that `daily.time` lists, each day carrying the first
    entry of every other series; `null` entries are `None`. */
module WeatherShape {
  import opened Common
  import opened Text
  import opened WeatherCodes

  /** One day of an Open-Meteo archive reply. */
  datatype ArchiveDay = ArchiveDay(temperatureMax: Option<real>, temperatureMin: Option<real>,
                                   weatherCode: Option<int>, precipitationSum: Option<real>,
                                   windSpeedMax: Option<real>)

  /** An archive reply: `daily` is absent, or holds its days. */
  datatype ArchiveData = ArchiveData(daily: Option<seq<ArchiveDay>>)

  /** The `current` block of an Open-Meteo forecast reply. */
  datatype Current = Current(temperature: Option<real>, weatherCode: Option<int>,
                             humidity: Option<real>, windSpeed: Option<real>,
                             windDirection: Option<real>, pressure: Option<real>)

  /** One day of a forecast reply's `daily` block. */
  datatype ForecastDay = ForecastDay(temperatureMax: Option<real>, temperatureMin: Option<real>,
                                     precipitationSum: Option<real>)

  datatype ForecastData = ForecastData(current: Current, daily: Option<seq<ForecastDay>>)

  /** The fields of an OpenWeatherMap reply that the server passes through:
      `main`, the first `weather` entry's `main`, `wind` and `rain`. */
  datatype OwmData = OwmData(temp: Option<real>, tempMax: Option<real>, tempMin: Option<real>,
                             humidity: Option<real>, pressure: Option<real>, condition: string,
                             windSpeed: Option<real>, windDeg: Option<real>,
                             rain1h: Option<real>, rain3h: Option<real>)

  /** The intermediate `weather` object: `main`, `weather[0].main`, `wind`
      and `precipitation`. */
  datatype Reading = Reading(temp: Option<real>, tempMax: Option<real>, tempMin: Option<real>,
                             humidity: Option<real>, pressure: Option<real>, condition: string,
                             windSpeed: Option<real>, windDeg: Option<real>,
                             precipitation: Option<real>)

  /** The wind direction text: the number of degrees followed by a degree
      sign. */
  datatype Direction = Direction(degrees: real, sign: string)

  /** The JSON object both fetchers return, without `fetched_at`. */
  datatype WeatherReport = WeatherReport(
    outingId: Option<int>, temperature: Option<real>,
    temperatureMax: Option<real>, temperatureMin: Option<real>,
    temperatureUnit: string, conditions: string, humidity: Option<real>,
    windSpeed: real, windDirection: Option<Direction>, pressure: Option<real>,
    precipitation: Option<real>)

  /** The degree sign as the client writes it: U+00B0. */
  const DegreeSign: string := "°"

  /** `+` on numbers that may be `null`: JavaScript reads `null` as 0. */
  function Plus(x: Option<real>, y: Option<real>): real {
    x.GetOr(0.0) + y.GetOr(0.0)
  }

  /** The archive branch: nothing when the reply has no day, otherwise the
      mean of the day's high and low, the day's code, wind and
      precipitation, and neither humidity, pressure nor wind direction. */
  function ArchiveReading(data: ArchiveData): (w: Option<Reading>)
    ensures w.Some? <==> data.daily.Some? && |data.daily.value| > 0
    ensures w.Some? ==>
              var day := data.daily.value[0];
              && w.value.tempMax == day.temperatureMax && w.value.tempMin == day.temperatureMin
              && w.value.humidity.None? && w.value.pressure.None? && w.value.windDeg.None?
              && w.value.condition == Condition(day.weatherCode)
              && w.value.windSpeed == Some(OrZero(day.windSpeedMax))
              && w.value.precipitation == Some(OrZero(day.precipitationSum))
  {
    match data.daily
    case Some(days) =>
      if |days| > 0 then
        var day := days[0];
        Some(Reading(Some(Plus(day.temperatureMax, day.temperatureMin) / 2.0),
                     day.temperatureMax, day.temperatureMin, None, None,
                     Condition(day.weatherCode),
                     Some(OrZero(day.windSpeedMax)), None,
                     Some(OrZero(day.precipitationSum))))
      else None
    case None => None
  }

  /** The archive temperature is the mean of the day's high and low. */
  lemma ArchiveMean(data: ArchiveData, high: real, low: real)
    requires data.daily.Some? && |data.daily.value| > 0
    requires data.daily.value[0].temperatureMax == Some(high)
    requires data.daily.value[0].temperatureMin == Some(low)
    ensures ArchiveReading(data).value.temp == Some((high + low) / 2.0)
    ensures low <= high ==> low <= ArchiveReading(data).value.temp.value <= high
  {
  }

  /** The forecast branch: the current readings, and the first day's high,
      low and precipitation when the reply lists a day. */
  function ForecastReading(data: ForecastData): (w: Reading)
    ensures w.temp == data.current.temperature && w.humidity == data.current.humidity
    ensures w.pressure == data.current.pressure && w.windDeg == data.current.windDirection
    ensures w.condition == Condition(data.current.weatherCode)
    ensures w.windSpeed == Some(OrZero(data.current.windSpeed))
    ensures data.daily.None? || |data.daily.value| == 0 ==>
              w.tempMax.None? && w.tempMin.None? && w.precipitation.None?
    ensures data.daily.Some? && |data.daily.value| > 0 ==>
              var day := data.daily.value[0];
              w.tempMax == day.temperatureMax && w.tempMin == day.temperatureMin
              && w.precipitation == day.precipitationSum
  {
    var c := data.current;
    var first := match data.daily
                 case Some(days) => if |days| > 0 then Some(days[0]) else None
                 case None => None;
    Reading(c.temperature,
            if first.Some? then first.value.temperatureMax else None,
            if first.Some? then first.value.temperatureMin else None,
            c.humidity, c.pressure, Condition(c.weatherCode),
            Some(OrZero(c.windSpeed)), c.windDirection,
            if first.Some? then first.value.precipitationSum else None)
  }

  /** The OpenWeatherMap branch: `main`, `weather` and `wind` pass through;
      precipitation is the last hour's rain, else the last three hours'. */
  function OwmReading(ow: OwmData): (w: Reading)
    ensures w.temp == ow.temp && w.tempMax == ow.tempMax && w.tempMin == ow.tempMin
    ensures w.humidity == ow.humidity && w.pressure == ow.pressure
    ensures w.condition == ow.condition
    ensures w.windSpeed == ow.windSpeed && w.windDeg == ow.windDeg
    ensures ow.rain1h.Some? ==> w.precipitation == ow.rain1h
    ensures ow.rain1h.None? ==> w.precipitation == ow.rain3h
  {
    Reading(ow.temp, ow.tempMax, ow.tempMin, ow.humidity, ow.pressure, ow.condition,
            ow.windSpeed, ow.windDeg, if ow.rain1h.Some? then ow.rain1h else ow.rain3h)
  }

  /** The returned object: `outing_id` is the route parameter read by
      `parseInt`, the unit is always Fahrenheit, the wind speed is never
      `null`, and the wind direction is present exactly when the reading
      has one. */
  function Shape(outingId: string, w: Reading, sign: string): (r: WeatherReport)
    ensures r.outingId == ParseInt10(outingId)
    ensures r.temperatureUnit == "fahrenheit"
    ensures r.temperature == w.temp && r.temperatureMax == w.tempMax && r.temperatureMin == w.tempMin
    ensures r.conditions == w.condition && r.humidity == w.humidity && r.pressure == w.pressure
    ensures w.windSpeed.Some? && w.windSpeed.value != 0.0 ==> r.windSpeed == w.windSpeed.value
    ensures w.windSpeed.None? ==> r.windSpeed == 0.0
    ensures r.windDirection.Some? <==> w.windDeg.Some?
    ensures r.windDirection.Some? ==> r.windDirection.value == Direction(w.windDeg.value, sign)
    ensures r.precipitation == w.precipitation
  {
    WeatherReport(ParseInt10(outingId), w.temp, w.tempMax, w.tempMin, "fahrenheit",
                  w.condition, w.humidity, OrZero(w.windSpeed),
                  if w.windDeg.Some? then Some(Direction(w.windDeg.value, sign)) else None,
                  w.pressure, w.precipitation)
  }

  /** A report from the archive carries the day's wind and precipitation,
      0 when the provider gives none, and never has a humidity, a pressure
      or a wind direction. */
  lemma ArchiveReport(outingId: string, data: ArchiveData, sign: string)
    requires ArchiveReading(data).Some?
    ensures var r := Shape(outingId, ArchiveReading(data).value, sign);
            && r.humidity.None? && r.pressure.None? && r.windDirection.None?
            && r.windSpeed == OrZero(data.daily.value[0].windSpeedMax)
            && r.precipitation == Some(OrZero(data.daily.value[0].precipitationSum))
  {
  }
}
