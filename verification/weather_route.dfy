/** The `GET /weather` handler of `server/src/routes/weather.ts`. `Number(...)`
    is an abstract parsing function passed in; the service behind the route is
    the Open-Meteo one over the network oracle. */
module WeatherRoute {
  import opened Results
  import opened WeatherTypes
  import OpenMeteo = OpenMeteoService

  const ServiceConfig := WeatherServiceConfig("https://api.open-meteo.com", None)
  const MissingCoordinates := "Latitude and longitude are required"
  const FetchFailed := "Failed to fetch weather data"
  const DefaultTimezone := "auto"

  /** The query parameters the handler reads; absent ones are None. */
  datatype Query = Query(latitude: Option<string>, longitude: Option<string>, timezone: Option<string>)

  datatype Body = ErrorBody(error: string) | WeatherBody(data: WeatherResponse)

  datatype HttpResponse = HttpResponse(status: nat, body: Body)

  /** The response together with the calls the service made on the network. */
  datatype Handled = Handled(response: HttpResponse, calls: seq<Request>, delays: seq<nat>)

  /** `!value` for a query string: absent or empty. */
  predicate Falsy(v: Option<string>)
    ensures Falsy(v) <==> v in {None, Some("")}
  {
    v.None? || v.value == ""
  }

  /** `String(timezone || 'auto')`. */
  function TimezoneOrDefault(tz: Option<string>): (r: string)
    ensures r != ""
    ensures tz == Some(r) || (Falsy(tz) && r == DefaultTimezone)
  {
    if Falsy(tz) then DefaultTimezone else tz.value
  }

  /** The request the handler has the service send for a query that passed
      validation. */
  function ServiceRequest(q: Query, toNumber: string -> real): Request
    requires !Falsy(q.latitude) && !Falsy(q.longitude)
  {
    OpenMeteo.ForecastRequest(ServiceConfig, toNumber(q.latitude.value), toNumber(q.longitude.value),
                              TimezoneOrDefault(q.timezone))
  }

  /** The `try`/`catch` around the service call: a returned response is sent
      as the body with the default status 200; anything thrown becomes a 500
      with a fixed message. */
  function Respond(s: Served): (h: Handled)
    ensures h.calls == s.calls && h.delays == s.delays
    ensures s.result.Success? <==> h.response.status == 200
    ensures s.result.Success? ==> h.response.body == WeatherBody(s.result.value)
    ensures s.result.Failure? <==> h.response == HttpResponse(500, ErrorBody(FetchFailed))
  {
    match s.result
    case Success(data) => Handled(HttpResponse(200, WeatherBody(data)), s.calls, s.delays)
    case Failure(_) => Handled(HttpResponse(500, ErrorBody(FetchFailed)), s.calls, s.delays)
  }

  /** The handler: 400 without a service call when a coordinate is missing or
      empty; otherwise the service's result as a 200 body, or, whatever it
      threw, a 500 carrying a fixed message. */
  function HandleWeather(q: Query, toNumber: string -> real, network: Network): (h: Handled)
    ensures h.response.status in {200, 400, 500}
    ensures h.response.status == 400 <==> Falsy(q.latitude) || Falsy(q.longitude)
    ensures h.response.status == 400 ==>
              h.response.body == ErrorBody(MissingCoordinates) && h.calls == [] && h.delays == []
    ensures h.response.status != 400 ==>
              1 <= |h.calls| <= OpenMeteo.MaxRetries && h.calls[0] == ServiceRequest(q, toNumber)
    ensures h.response.status == 500 ==> h.response.body == ErrorBody(FetchFailed)
  {
    if Falsy(q.latitude) || Falsy(q.longitude) then
      Handled(HttpResponse(400, ErrorBody(MissingCoordinates)), [], [])
    else
      var lat, lon := toNumber(q.latitude.value), toNumber(q.longitude.value);
      var tz := TimezoneOrDefault(q.timezone);
      Respond(OpenMeteo.GetWeatherData(ServiceConfig, lat, lon, tz, network))
  }

  /** After validation the handler answers with exactly what the service
      produced: its result as a 200 body, or the generic 500; and the calls
      it made are the service's. */
  lemma ResponseMirrorsService(q: Query, toNumber: string -> real, network: Network)
    requires !Falsy(q.latitude) && !Falsy(q.longitude)
    ensures var s := OpenMeteo.GetWeatherData(ServiceConfig, toNumber(q.latitude.value),
                                              toNumber(q.longitude.value), TimezoneOrDefault(q.timezone), network);
            var h := HandleWeather(q, toNumber, network);
            && (s.result.Success? ==> h.response == HttpResponse(200, WeatherBody(s.result.value)))
            && (s.result.Failure? ==> h.response == HttpResponse(500, ErrorBody(FetchFailed)))
            && h.calls == s.calls
  {
  }

  /** No error detail reaches the client: any two service calls that throw,
      whatever they threw, get the same response. */
  lemma ErrorDetailHidden(s: Served, s': Served)
    requires s.result.Failure? && s'.result.Failure?
    ensures Respond(s).response == Respond(s').response
  {
  }

  /** An absent or empty timezone becomes `auto`; any other is forwarded as is. */
  lemma TimezoneForwarded(q: Query, toNumber: string -> real)
    requires !Falsy(q.latitude) && !Falsy(q.longitude)
    ensures var p := ServiceRequest(q, toNumber).params;
            && "timezone" in p
            && (Falsy(q.timezone) ==> p["timezone"] == StringParam("auto"))
            && (!Falsy(q.timezone) ==> p["timezone"] == StringParam(q.timezone.value))
  {
    var tz := TimezoneOrDefault(q.timezone);
    OpenMeteo.ForecastRequestShape(ServiceConfig, toNumber(q.latitude.value), toNumber(q.longitude.value), tz);
  }

  /** The service is always asked at the Open-Meteo forecast URL. */
  lemma ServiceUrl(q: Query, toNumber: string -> real)
    requires !Falsy(q.latitude) && !Falsy(q.longitude)
    ensures ServiceRequest(q, toNumber).url == "https://api.open-meteo.com/v1/forecast"
  {
    assert ServiceRequest(q, toNumber).url == ServiceConfig.baseUrl + OpenMeteo.Endpoint;
  }

  /** Validation rejects only falsy strings: "0" and "0.0" pass and reach the
      service. */
  lemma ZeroCoordinatesAccepted(toNumber: string -> real, network: Network)
    ensures var h := HandleWeather(Query(Some("0"), Some("0.0"), None), toNumber, network);
            && h.response.status != 400
            && |h.calls| >= 1
            && h.calls[0].url == "https://api.open-meteo.com/v1/forecast"
  {
    var q := Query(Some("0"), Some("0.0"), None);
    assert |q.latitude.value| == 1 && |q.longitude.value| == 3;
    ServiceUrl(q, toNumber);
  }
}
