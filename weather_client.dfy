/** The browser's `fetchWeatherForOuting`: the same coordinate fallback as
    the server but without the range check, the Open-Meteo archive for a
    past day and the forecast otherwise, and an exception with a fixed
    message for every failure. */
module WeatherClient {
  import opened Common
  import opened Coordinates
  import opened WeatherCodes
  import opened WeatherShape
  import opened WeatherServer

  /** What the asynchronous function settles with. */
  datatype Outcome = Returned(report: WeatherReport) | Threw(message: string)

  const NoCoordinatesMessage := "Location must have coordinates (lat,lng)"
  const HistoryFailedMessage := "Failed to fetch historical weather"
  const ForecastFailedMessage := "Failed to fetch weather"

  /** The pinpoint fallback: a non-empty pinpoint is trimmed and matched,
      and the pair is taken whatever its range. */
  function PinpointCoordinates(pinpoint: Option<string>): Option<LatLng> {
    if pinpoint.Some? && pinpoint.value != "" then MatchPinpoint(pinpoint.value) else None
  }

  /** `fetch` fails the call in two ways: a status that is not ok throws the
      branch's own message, and a request that gets no response rejects
      with the network error's message. */
  function FetchFailure<T>(u: Upstream<T>, notOk: string): (message: string)
    requires !u.Delivered?
    ensures u.HttpError? ==> message == notOk
    ensures u.NoResponse? ==> message == u.message
  {
    match u
    case HttpError(_, _, _) => notOk
    case NoResponse(message) => message
  }

  /** The whole function: its outcome and the provider call it made. */
  function FetchWeatherForOuting(outingId: string, outingDay: int,
                                 latitude: Option<real>, longitude: Option<real>,
                                 pinpoint: Option<string>, today: int,
                                 archive: Upstream<ArchiveData>,
                                 forecast: Upstream<ForecastData>): (r: (Outcome, seq<Call>))
    ensures |r.1| <= 1
    ensures var c := ResolveCoordinates(latitude, longitude, PinpointCoordinates(pinpoint));
            r.1 == [] <==> c.0.None? || c.1.None?
    ensures r.1 == [] ==> r.0 == Threw(NoCoordinatesMessage)
    ensures r.1 != [] ==> (r.1[0].ArchiveCall? <==> outingDay < today) && !r.1[0].OwmCall?
    ensures var c := ResolveCoordinates(latitude, longitude, PinpointCoordinates(pinpoint));
            r.1 != [] ==>
              && r.1[0].latitude == c.0.value && r.1[0].longitude == c.1.value
              && (r.1[0].ArchiveCall? ==> r.1[0].day == outingDay)
    ensures r.1 != [] && outingDay < today ==>
              && (archive.HttpError? ==> r.0 == Threw(HistoryFailedMessage))
              && (archive.NoResponse? ==> r.0 == Threw(archive.message))
              && (archive.Delivered? && ArchiveReading(archive.data).None? ==> r.0 == Threw(NoHistoryError))
              && (archive.Delivered? && ArchiveReading(archive.data).Some? ==>
                    r.0 == Returned(Shape(outingId, ArchiveReading(archive.data).value, DegreeSign)))
    ensures r.1 != [] && outingDay >= today ==>
              && (forecast.HttpError? ==> r.0 == Threw(ForecastFailedMessage))
              && (forecast.NoResponse? ==> r.0 == Threw(forecast.message))
              && (forecast.Delivered? ==>
                    r.0 == Returned(Shape(outingId, ForecastReading(forecast.data), DegreeSign)))
  {
    var (lat, lng) := ResolveCoordinates(latitude, longitude, PinpointCoordinates(pinpoint));
    if lat.None? || lng.None? then (Threw(NoCoordinatesMessage), [])
    else if outingDay < today then
      var call := ArchiveCall(lat.value, lng.value, outingDay);
      if !archive.Delivered? then (Threw(FetchFailure(archive, HistoryFailedMessage)), [call])
      else
        match ArchiveReading(archive.data)
        case None => (Threw(NoHistoryError), [call])
        case Some(w) => (Returned(Shape(outingId, w, DegreeSign)), [call])
    else
      var call := ForecastCall(lat.value, lng.value);
      if !forecast.Delivered? then (Threw(FetchFailure(forecast, ForecastFailedMessage)), [call])
      else (Returned(Shape(outingId, ForecastReading(forecast.data), DegreeSign)), [call])
  }

  /** With coordinates, a past day whose archive reply lists a day returns
      the mean of its high and low, its wind and precipitation (0 when
      missing) and no humidity, pressure or wind direction; a reply with
      an empty series throws. */
  lemma ClientPastDay(outingId: string, outingDay: int, latitude: Option<real>, longitude: Option<real>,
                      pinpoint: Option<string>, today: int,
                      archive: Upstream<ArchiveData>, forecast: Upstream<ForecastData>)
    requires var c := ResolveCoordinates(latitude, longitude, PinpointCoordinates(pinpoint));
             c.0.Some? && c.1.Some?
    requires outingDay < today && archive.Delivered?
    ensures var r := FetchWeatherForOuting(outingId, outingDay, latitude, longitude, pinpoint,
                                           today, archive, forecast).0;
            var daily := archive.data.daily;
            && (daily.None? || |daily.value| == 0 ==> r == Threw(NoHistoryError))
            && (daily.Some? && |daily.value| > 0 ==>
                  var day := daily.value[0];
                  && r.Returned?
                  && r.report.temperature == Some(Plus(day.temperatureMax, day.temperatureMin) / 2.0)
                  && r.report.conditions == Condition(day.weatherCode)
                  && r.report.humidity.None? && r.report.pressure.None? && r.report.windDirection.None?
                  && r.report.windSpeed == OrZero(day.windSpeedMax)
                  && r.report.precipitation == Some(OrZero(day.precipitationSum)))
  {
  }

  /** The pinpoint as the browser receives it in the outing's JSON. */
  function PinpointText(v: Value): Option<string> {
    if v.Str? then Some(v.s) else None
  }

  /** Without stored coordinates the client calls the provider even for a
      pinpoint out of range. */
  lemma ClientIgnoresRange(outingId: string, outingDay: int, today: int,
                           archive: Upstream<ArchiveData>, forecast: Upstream<ForecastData>)
    ensures var r := FetchWeatherForOuting(outingId, outingDay, None, None, Some("100,200"),
                                           today, archive, forecast);
            r.1 == [if outingDay < today then ArchiveCall(100.0, 200.0, outingDay)
                    else ForecastCall(100.0, 200.0)]
  {
    OutOfRangePinpoint();
  }

  /** The server refuses an outing with that pinpoint with a 400. */
  lemma ServerChecksRange(row: OutingRow)
    requires row.outingDate.Some? && row.locationId == Some(1)
    requires row.pinpoint == Str("100,200") && row.latitude.None? && row.longitude.None?
    ensures CheckOuting(Rows([row])) == Rejected(Refuse(400, NoCoordinatesError))
  {
    OutOfRangePinpoint();
    assert RowCoordinates(row) == (None, None);
    CheckOrder(row, []);
    assert [row] + [] == [row];
  }

  /** Where the server accepts an outing's coordinates, the client finds
      the same ones. */
  lemma SameCoordinates(row: OutingRow)
    requires row.pinpoint.Str? || row.pinpoint.Null?
    requires RowCoordinates(row).0.Some? && RowCoordinates(row).1.Some?
    ensures ResolveCoordinates(row.latitude, row.longitude, PinpointCoordinates(PinpointText(row.pinpoint)))
            == RowCoordinates(row)
  {
    if row.latitude.None? || row.longitude.None? {
      var s := row.pinpoint.s;
      assert s != "";
      ServerIsClientInRange(s);
    }
  }

  /** Without an OpenWeatherMap key, every report the server sends is the
      one the client builds from the same outing and the same provider
      reply, after the same call. */
  lemma ServerClientAgree(outingId: string, lookup: Lookup, today: int,
                          archive: Upstream<ArchiveData>, owm: Upstream<OwmData>,
                          forecast: Upstream<ForecastData>)
    requires HandleWeather(DegreeSign, outingId, lookup, today, None, archive, owm, forecast).0.Report?
    requires lookup.Rows? && |lookup.rows| > 0
    requires lookup.rows[0].pinpoint.Str? || lookup.rows[0].pinpoint.Null?
    ensures var row := lookup.rows[0];
            FetchWeatherForOuting(outingId, row.outingDate.value, row.latitude, row.longitude,
                                  PinpointText(row.pinpoint), today, archive, forecast)
            == (Returned(HandleWeather(DegreeSign, outingId, lookup, today, None, archive, owm, forecast).0.report),
                HandleWeather(DegreeSign, outingId, lookup, today, None, archive, owm, forecast).1)
  {
    var row := lookup.rows[0];
    assert CheckOuting(lookup).Ready?;
    var t := CheckOuting(lookup).target;
    assert RowCoordinates(row) == (Some(t.latitude), Some(t.longitude));
    SameCoordinates(row);
  }
}
