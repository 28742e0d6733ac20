/** The server's `GET /outings/:id/weather` handler: it looks the outing up,
    refuses an outing without a date, a location or coordinates before it
    calls any provider, picks the archive for a past day and otherwise
    OpenWeatherMap (with a key) or the Open-Meteo forecast, and maps a
    provider failure to a 500 that carries the provider's reason. */
module WeatherServer {
  import opened Common
  import opened Text
  import opened Coordinates
  import opened WeatherCodes
  import opened WeatherShape

  /** The joined row: the outing's date as a day number, and its location's
      id, pinpoint and stored coordinates (all `null` without a location). */
  datatype OutingRow = OutingRow(outingDate: Option<int>, locationId: Option<int>,
                                 pinpoint: Value, latitude: Option<real>,
                                 longitude: Option<real>)

  /** What the database query gives the callback. */
  datatype Lookup = QueryError(message: string) | Rows(rows: seq<OutingRow>)

  /** A provider call's outcome: the parsed body, an error status whose body
      may carry `reason` and `error`, or no response at all. */
  datatype Upstream<T> =
    | Delivered(data: T)
    | HttpError(reason: Value, error: Value, message: string)
    | NoResponse(message: string)

  /** The provider request the handler makes. */
  datatype Call =
    | ArchiveCall(latitude: real, longitude: real, day: int)
    | OwmCall(latitude: real, longitude: real)
    | ForecastCall(latitude: real, longitude: real)

  /** The HTTP response: the report, or a status with an `error` field and,
      for a provider failure, a `details` field. */
  datatype Response =
    | Report(report: WeatherReport)
    | Failure(status: int, error: Value, details: Option<Value>)

  /** The day and the coordinates the checks let through. */
  datatype Target = Target(day: int, latitude: real, longitude: real)

  datatype Checked = Rejected(response: Response) | Ready(target: Target)

  datatype Source = Archive | OpenWeatherMap | Forecast

  const NoDateError := "Cannot fetch weather: outing must have a date"
  const NoLocationError :=
    "Cannot fetch weather: outing must have a location. Add a location with coordinates (lat,lng)."
  const NoCoordinatesError :=
    "Cannot fetch weather: location must have coordinates. Add coordinates (lat,lng) for this spot."
  const NoHistoryError := "No historical weather data available for this date"
  const FallbackError := "Failed to fetch weather data"

  function Refuse(status: int, message: string): Response {
    Failure(status, Str(message), None)
  }

  /** The coordinates the handler uses: the stored ones, with the pinpoint
      consulted only when either is missing. */
  function RowCoordinates(row: OutingRow): (Option<real>, Option<real>) {
    ResolveCoordinates(row.latitude, row.longitude, ParseCoordinates(row.pinpoint))
  }

  /** The checks, in order: query error (500), no row (404), no date (400),
      no location (400), no coordinates (400). */
  function CheckOuting(lookup: Lookup): (c: Checked)
    ensures lookup.QueryError? ==> c == Rejected(Refuse(500, lookup.message))
    ensures lookup == Rows([]) ==> c == Rejected(Refuse(404, "Outing not found"))
    ensures c.Ready? ==>
              && lookup.Rows? && |lookup.rows| > 0
              && var row := lookup.rows[0];
              && row.outingDate == Some(c.target.day)
              && row.locationId.Some? && row.locationId.value != 0
              && RowCoordinates(row) == (Some(c.target.latitude), Some(c.target.longitude))
    ensures lookup.Rows? && |lookup.rows| > 0 ==>
              var row := lookup.rows[0];
              var (lat, lng) := RowCoordinates(row);
              row.outingDate.Some? && row.locationId.Some? && row.locationId.value != 0
              && lat.Some? && lng.Some? ==>
                c == Ready(Target(row.outingDate.value, lat.value, lng.value))
  {
    match lookup
    case QueryError(message) => Rejected(Refuse(500, message))
    case Rows(rows) =>
      if |rows| == 0 then Rejected(Refuse(404, "Outing not found"))
      else
        var row := rows[0];
        if row.outingDate.None? then Rejected(Refuse(400, NoDateError))
        else if row.locationId.None? || row.locationId.value == 0 then Rejected(Refuse(400, NoLocationError))
        else
          var (lat, lng) := RowCoordinates(row);
          if lat.None? || lng.None? then Rejected(Refuse(400, NoCoordinatesError))
          else Ready(Target(row.outingDate.value, lat.value, lng.value))
  }

  /** `isHistorical` first, then the key. */
  function ChooseSource(day: int, today: int, apiKey: Option<string>): (s: Source)
    ensures s == Archive <==> day < today
    ensures s == OpenWeatherMap <==> day >= today && apiKey.Some? && apiKey.value != ""
  {
    if day < today then Archive
    else if apiKey.Some? && apiKey.value != "" then OpenWeatherMap
    else Forecast
  }

  function CallFor(t: Target, s: Source): (call: Call) {
    match s
    case Archive => ArchiveCall(t.latitude, t.longitude, t.day)
    case OpenWeatherMap => OwmCall(t.latitude, t.longitude)
    case Forecast => ForecastCall(t.latitude, t.longitude)
  }

  /** What the `catch` block reads off a failure: the body's `reason`, else
      its `error`, else the message. */
  function FailureDetails<T>(u: Upstream<T>): (d: Value)
    requires !u.Delivered?
    ensures u.HttpError? && Truthy(u.reason) ==> d == u.reason
    ensures u.HttpError? && !Truthy(u.reason) && Truthy(u.error) ==> d == u.error
    ensures u.HttpError? && !Truthy(u.reason) && !Truthy(u.error) ==> d == Str(u.message)
    ensures u.NoResponse? ==> d == Str(u.message)
  {
    match u
    case HttpError(reason, error, message) => OrElse(reason, OrElse(error, Str(message)))
    case NoResponse(message) => Str(message)
  }

  /** The `catch` block's response. */
  function CaughtResponse(details: Value): (r: Response)
    ensures r.Failure? && r.status == 500
    ensures Truthy(details) ==> r.error == details && r.details == Some(details)
    ensures !Truthy(details) ==> r.error == Str(FallbackError) && r.details == Some(Str(""))
  {
    Failure(500, if Truthy(details) then details else Str(FallbackError),
            Some(OrElse(details, Str(""))))
  }

  /** The reading a provider outcome gives, or the details of the failure;
      an archive reply without a day fails with its own message. */
  function ReadingFor(s: Source, archive: Upstream<ArchiveData>, owm: Upstream<OwmData>,
                      forecast: Upstream<ForecastData>): (rd: Result<Reading, Value>)
    ensures s == Archive ==>
              && (!archive.Delivered? ==> rd == Err(FailureDetails(archive)))
              && (archive.Delivered? && ArchiveReading(archive.data).None? ==> rd == Err(Str(NoHistoryError)))
              && (archive.Delivered? && ArchiveReading(archive.data).Some? ==>
                    rd == Ok(ArchiveReading(archive.data).value))
    ensures s == OpenWeatherMap ==>
              && (!owm.Delivered? ==> rd == Err(FailureDetails(owm)))
              && (owm.Delivered? ==> rd == Ok(OwmReading(owm.data)))
    ensures s == Forecast ==>
              && (!forecast.Delivered? ==> rd == Err(FailureDetails(forecast)))
              && (forecast.Delivered? ==> rd == Ok(ForecastReading(forecast.data)))
  {
    match s
    case Archive =>
      if !archive.Delivered? then Err(FailureDetails(archive))
      else if ArchiveReading(archive.data).None? then Err(Str(NoHistoryError))
      else Ok(ArchiveReading(archive.data).value)
    case OpenWeatherMap =>
      if owm.Delivered? then Ok(OwmReading(owm.data)) else Err(FailureDetails(owm))
    case Forecast =>
      if forecast.Delivered? then Ok(ForecastReading(forecast.data)) else Err(FailureDetails(forecast))
  }

  /** The whole handler: the response and the provider calls it made. The
      wind direction is written with `sign`: the handler as its source
      spells it is `HandleWeather(AsWrittenDegreeSign, ..)`, and the
      corrected one, which agrees with the client, is
      `HandleWeather(DegreeSign, ..)`. */
  function HandleWeather(sign: string, outingId: string, lookup: Lookup, today: int,
                         apiKey: Option<string>, archive: Upstream<ArchiveData>,
                         owm: Upstream<OwmData>, forecast: Upstream<ForecastData>): (r: (Response, seq<Call>))
    ensures CheckOuting(lookup).Rejected? ==> r == (CheckOuting(lookup).response, [])
    ensures CheckOuting(lookup).Ready? ==>
              var t := CheckOuting(lookup).target;
              var rd := ReadingFor(ChooseSource(t.day, today, apiKey), archive, owm, forecast);
              && r.1 == [CallFor(t, ChooseSource(t.day, today, apiKey))]
              && (r.0.Report? <==> rd.Ok?)
              && (rd.Ok? ==> r.0.report == Shape(outingId, rd.value, sign))
              && (rd.Err? ==> r.0 == CaughtResponse(rd.error))
  {
    match CheckOuting(lookup)
    case Rejected(response) => (response, [])
    case Ready(t) =>
      var s := ChooseSource(t.day, today, apiKey);
      var response := match ReadingFor(s, archive, owm, forecast)
                      case Ok(w) => Report(Shape(outingId, w, sign))
                      case Err(details) => CaughtResponse(details);
      (response, [CallFor(t, s)])
  }

  /** A provider is called at most once, and only once every check has
      passed: a refused request makes no call. */
  lemma CallsOnlyWhenReady(sign: string, outingId: string, lookup: Lookup, today: int, apiKey: Option<string>,
                           archive: Upstream<ArchiveData>, owm: Upstream<OwmData>,
                           forecast: Upstream<ForecastData>)
    ensures var r := HandleWeather(sign, outingId, lookup, today, apiKey, archive, owm, forecast);
            && |r.1| <= 1
            && (r.1 == [] <==> CheckOuting(lookup).Rejected?)
            && (r.1 == [] ==> r.0.Failure? && r.0.status in {400, 404, 500})
  {
  }

  /** The checks come in source order: a missing row is a 404 whatever
      else, a missing date a 400 whatever the location, and so on. */
  lemma CheckOrder(row: OutingRow, rest: seq<OutingRow>)
    ensures row.outingDate.None? ==>
              CheckOuting(Rows([row] + rest)) == Rejected(Refuse(400, NoDateError))
    ensures row.outingDate.Some? && (row.locationId.None? || row.locationId == Some(0)) ==>
              CheckOuting(Rows([row] + rest)) == Rejected(Refuse(400, NoLocationError))
    ensures row.outingDate.Some? && row.locationId.Some? && row.locationId.value != 0 ==>
              (CheckOuting(Rows([row] + rest)) == Rejected(Refuse(400, NoCoordinatesError))
               <==> RowCoordinates(row).0.None? || RowCoordinates(row).1.None?)
  {
    assert ([row] + rest)[0] == row;
  }

  /** Stored coordinates win; coordinates taken from the pinpoint are
      always in range, because the server's parser checks the range. */
  lemma TargetCoordinates(lookup: Lookup)
    requires CheckOuting(lookup).Ready?
    ensures var row := lookup.rows[0];
            var t := CheckOuting(lookup).target;
            && (row.latitude.Some? && row.longitude.Some? ==>
                  t.latitude == row.latitude.value && t.longitude == row.longitude.value)
            && (row.latitude.None? || row.longitude.None? ==>
                  ParseCoordinates(row.pinpoint) == Some(LatLng(t.latitude, t.longitude))
                  && InRange(LatLng(t.latitude, t.longitude)))
  {
    var row := lookup.rows[0];
    if row.latitude.None? || row.longitude.None? {
      var p := ParseCoordinates(row.pinpoint);
      if p.Some? {
        ParseCoordinatesSound(row.pinpoint);
      }
    }
  }

  /** The archive is asked exactly for a past day, at the outing's day. */
  lemma HistoricalUsesArchive(sign: string, outingId: string, lookup: Lookup, today: int, apiKey: Option<string>,
                              archive: Upstream<ArchiveData>, owm: Upstream<OwmData>,
                              forecast: Upstream<ForecastData>)
    requires CheckOuting(lookup).Ready?
    ensures var t := CheckOuting(lookup).target;
            var calls := HandleWeather(sign, outingId, lookup, today, apiKey, archive, owm, forecast).1;
            && (calls[0].ArchiveCall? <==> t.day < today)
            && (calls[0].ArchiveCall? ==> calls[0].day == t.day)
            && (calls[0].OwmCall? <==> t.day >= today && apiKey.Some? && apiKey.value != "")
  {
  }

  /** A report is Fahrenheit and exists exactly when the chosen provider
      delivered a reply (for the archive, one that lists a day); an archive
      reply without a day answers 500 with its own message, and a failed
      call answers what the `catch` block makes of the failure. */
  lemma ProviderOutcome(sign: string, outingId: string, lookup: Lookup, today: int, apiKey: Option<string>,
                        archive: Upstream<ArchiveData>, owm: Upstream<OwmData>,
                        forecast: Upstream<ForecastData>)
    requires CheckOuting(lookup).Ready?
    ensures var t := CheckOuting(lookup).target;
            var s := ChooseSource(t.day, today, apiKey);
            var r := HandleWeather(sign, outingId, lookup, today, apiKey, archive, owm, forecast).0;
            && (r.Report? ==> r.report.temperatureUnit == "fahrenheit")
            && (r.Report? <==>
                  || (s == Archive && archive.Delivered? && ArchiveReading(archive.data).Some?)
                  || (s == OpenWeatherMap && owm.Delivered?)
                  || (s == Forecast && forecast.Delivered?))
            && (s == Archive && archive.Delivered? && ArchiveReading(archive.data).None? ==>
                  r == Failure(500, Str(NoHistoryError), Some(Str(NoHistoryError))))
            && (s == Archive && !archive.Delivered? ==> r == CaughtResponse(FailureDetails(archive)))
            && (s == OpenWeatherMap && !owm.Delivered? ==> r == CaughtResponse(FailureDetails(owm)))
            && (s == Forecast && !forecast.Delivered? ==> r == CaughtResponse(FailureDetails(forecast)))
  {
  }

  /** The 500 a failed call gets: the reply's `reason`, else its `error`,
      else the failure's message, and the fixed message with empty details
      when even the message is empty. */
  lemma FailureResponse<T>(u: Upstream<T>)
    requires !u.Delivered?
    ensures var r := CaughtResponse(FailureDetails(u));
            && (u.HttpError? && Truthy(u.reason) ==> r == Failure(500, u.reason, Some(u.reason)))
            && (u.HttpError? && !Truthy(u.reason) && Truthy(u.error) ==>
                  r == Failure(500, u.error, Some(u.error)))
            && ((u.HttpError? && !Truthy(u.reason) && !Truthy(u.error)) || u.NoResponse? ==>
                  && (u.message != "" ==> r == Failure(500, Str(u.message), Some(Str(u.message))))
                  && (u.message == "" ==> r == Failure(500, Str(FallbackError), Some(Str("")))))
  {
  }

  /** A past day whose archive reply lists a day is reported with the mean
      of its high and low, its code's condition, its wind and precipitation
      (0 when missing), and no humidity, pressure or wind direction. */
  lemma PastDayReport(sign: string, outingId: string, lookup: Lookup, today: int, apiKey: Option<string>,
                      archive: Upstream<ArchiveData>, owm: Upstream<OwmData>,
                      forecast: Upstream<ForecastData>)
    requires CheckOuting(lookup).Ready? && CheckOuting(lookup).target.day < today
    requires archive.Delivered? && archive.data.daily.Some? && |archive.data.daily.value| > 0
    ensures var day := archive.data.daily.value[0];
            var r := HandleWeather(sign, outingId, lookup, today, apiKey, archive, owm, forecast).0;
            && r.Report?
            && r.report.outingId == ParseInt10(outingId)
            && r.report.temperature == Some(Plus(day.temperatureMax, day.temperatureMin) / 2.0)
            && r.report.temperatureMax == day.temperatureMax
            && r.report.temperatureMin == day.temperatureMin
            && r.report.conditions == Condition(day.weatherCode)
            && r.report.humidity.None? && r.report.pressure.None? && r.report.windDirection.None?
            && r.report.windSpeed == OrZero(day.windSpeedMax)
            && r.report.precipitation == Some(OrZero(day.precipitationSum))
  {
  }

  /** Today or a later day, without an OpenWeatherMap key, is reported with
      the forecast's current reading and its first day's high, low and
      precipitation. */
  lemma CurrentDayReport(sign: string, outingId: string, lookup: Lookup, today: int, apiKey: Option<string>,
                         archive: Upstream<ArchiveData>, owm: Upstream<OwmData>,
                         forecast: Upstream<ForecastData>)
    requires CheckOuting(lookup).Ready? && CheckOuting(lookup).target.day >= today
    requires apiKey.None? || apiKey.value == ""
    requires forecast.Delivered?
    ensures var c := forecast.data.current;
            var daily := forecast.data.daily;
            var r := HandleWeather(sign, outingId, lookup, today, apiKey, archive, owm, forecast).0;
            && r.Report?
            && r.report.temperature == c.temperature
            && r.report.conditions == Condition(c.weatherCode)
            && r.report.humidity == c.humidity && r.report.pressure == c.pressure
            && r.report.windSpeed == OrZero(c.windSpeed)
            && r.report.windDirection ==
                 (if c.windDirection.Some? then Some(Direction(c.windDirection.value, sign)) else None)
            && (daily.Some? && |daily.value| > 0 ==>
                  && r.report.temperatureMax == daily.value[0].temperatureMax
                  && r.report.temperatureMin == daily.value[0].temperatureMin
                  && r.report.precipitation == daily.value[0].precipitationSum)
            && (daily.None? || |daily.value| == 0 ==>
                  r.report.temperatureMax.None? && r.report.temperatureMin.None?
                  && r.report.precipitation.None?)
  {
  }

  /** Today or a later day, with a key, passes OpenWeatherMap's reading
      through, with the last hour's rain, else the last three hours'. */
  lemma KeyedDayReport(sign: string, outingId: string, lookup: Lookup, today: int, apiKey: Option<string>,
                       archive: Upstream<ArchiveData>, owm: Upstream<OwmData>,
                       forecast: Upstream<ForecastData>)
    requires CheckOuting(lookup).Ready? && CheckOuting(lookup).target.day >= today
    requires apiKey.Some? && apiKey.value != ""
    requires owm.Delivered?
    ensures var ow := owm.data;
            var r := HandleWeather(sign, outingId, lookup, today, apiKey, archive, owm, forecast).0;
            && r.Report?
            && r.report.temperature == ow.temp
            && r.report.temperatureMax == ow.tempMax && r.report.temperatureMin == ow.tempMin
            && r.report.conditions == ow.condition
            && r.report.humidity == ow.humidity && r.report.pressure == ow.pressure
            && r.report.windSpeed == OrZero(ow.windSpeed)
            && r.report.windDirection == (if ow.windDeg.Some? then Some(Direction(ow.windDeg.value, sign)) else None)
            && r.report.precipitation == (if ow.rain1h.Some? then ow.rain1h else ow.rain3h)
  {
  }

  /** The degree sign as the server's source spells it: the two bytes of the
      UTF-8 encoding of U+00B0, each read back as a character of its own. */
  const AsWrittenDegreeSign: string := "\U{C2}\U{B0}"

  /** The report as the server's source shapes it, with that sign. */
  function ShapeAsWritten(outingId: string, w: Reading): (r: WeatherReport)
    ensures r.windDirection.Some? <==> w.windDeg.Some?
    ensures r.windDirection.Some? ==> |r.windDirection.value.sign| == 2
  {
    Shape(outingId, w, AsWrittenDegreeSign)
  }

  /** The spelled sign is exactly U+00B0 encoded as UTF-8 (lead byte
      0xC0 plus the top two bits, continuation byte 0x80 plus the low six)
      and decoded one byte at a time; so every wind direction the server
      reports ends in two characters where the client's ends in one. */
  lemma AsWrittenSignIsMisdecoded(outingId: string, w: Reading)
    requires w.windDeg.Some?
    ensures var b := DegreeSign[0] as int;
            AsWrittenDegreeSign == [(0xC0 + b / 64) as char, (0x80 + b % 64) as char]
    ensures ShapeAsWritten(outingId, w).windDirection != Shape(outingId, w, DegreeSign).windDirection
  {
    assert |DegreeSign| == 1;
  }

  /** The handler as written answers exactly what the corrected one
      answers, except that every wind direction carries the misdecoded
      sign. */
  lemma AsWrittenHandlerDiffers(outingId: string, lookup: Lookup, today: int, apiKey: Option<string>,
                                archive: Upstream<ArchiveData>, owm: Upstream<OwmData>,
                                forecast: Upstream<ForecastData>)
    ensures var a := HandleWeather(AsWrittenDegreeSign, outingId, lookup, today, apiKey, archive, owm, forecast);
            var c := HandleWeather(DegreeSign, outingId, lookup, today, apiKey, archive, owm, forecast);
            && a.1 == c.1
            && (a.0.Report? <==> c.0.Report?)
            && (a.0.Failure? ==> a.0 == c.0)
            && (a.0.Report? ==> a.0.report.(windDirection := c.0.report.windDirection) == c.0.report)
            && (a.0.Report? && c.0.report.windDirection.Some? ==>
                  a.0.report.windDirection == Some(Direction(c.0.report.windDirection.value.degrees, AsWrittenDegreeSign))
                  && a.0 != c.0)
  {
    assert AsWrittenDegreeSign != DegreeSign by {
      assert |AsWrittenDegreeSign| == 2 && |DegreeSign| == 1;
    }
  }
}
