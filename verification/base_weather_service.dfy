/** `BaseWeatherService` of `server/src/services/baseWeatherService.ts`: the
    template that composes the request, fetches and transforms. The hooks a
    concrete provider supplies (endpoint, additional parameters, fetch and
    transform) are parameters here. */
module BaseWeatherService {
  import opened Results
  import opened WeatherTypes
  import Json

  const ApiErrorPrefix := "Weather API error: "

  /** The base `fetchWeatherData` applied to what the HTTP client did: the body
      on success; an HTTP-client error rethrown as a fresh `Error` whose message
      carries the original one after a fixed prefix; any other error rethrown
      unchanged. */
  function FetchOnce(outcome: HttpOutcome): (r: Result<Json.Value, Thrown>)
    ensures outcome.Received? <==> r.Success?
    ensures outcome.Received? ==> r.value == outcome.data
    ensures r.Failure? ==> r.error.Error?
    ensures outcome.Raised? && outcome.error.AxiosError? ==>
              && ApiErrorPrefix <= r.error.message
              && r.error.message[|ApiErrorPrefix|..] == outcome.error.message
    ensures outcome.Raised? && outcome.error.Error? ==> r.error == outcome.error
  {
    match outcome
    case Received(data) => Success(data)
    case Raised(AxiosError(m)) => Failure(Error(ApiErrorPrefix + m))
    case Raised(e) => Failure(e)
  }

  /** Two HTTP-client errors are told apart by the rewrapped message as well. */
  lemma RewrapKeepsMessage(m: string, m': string)
    requires m != m'
    ensures FetchOnce(Raised(AxiosError(m))) != FetchOnce(Raised(AxiosError(m')))
  {
    var r, r' := FetchOnce(Raised(AxiosError(m))), FetchOnce(Raised(AxiosError(m')));
    assert r.error.message[|ApiErrorPrefix|..] == m;
    assert r'.error.message[|ApiErrorPrefix|..] == m';
  }

  /** `${baseUrl}${endpoint}`. */
  function RequestUrl(config: WeatherServiceConfig, endpoint: string): (url: string)
    ensures |url| == |config.baseUrl| + |endpoint|
    ensures url[..|config.baseUrl|] == config.baseUrl
    ensures url[|config.baseUrl|..] == endpoint
  {
    config.baseUrl + endpoint
  }

  /** `{ latitude: lat, longitude: lon, ...additional }`: a later key of the
      spread replaces an earlier one. */
  function RequestParams(lat: real, lon: real, additional: Params): (p: Params)
    ensures p.Keys == {"latitude", "longitude"} + additional.Keys
    ensures forall k :: k in additional ==> p[k] == additional[k]
    ensures "latitude" !in additional ==> p["latitude"] == NumberParam(lat)
    ensures "longitude" !in additional ==> p["longitude"] == NumberParam(lon)
  {
    map["latitude" := NumberParam(lat), "longitude" := NumberParam(lon)] + additional
  }

  /** `getWeatherData`: compose the request from the provider's hooks, fetch
      it, and only when the fetch has returned, transform its body. The
      transform makes no call of its own, and a fetch that throws is passed on. */
  function GetWeatherData(
    config: WeatherServiceConfig,
    endpoint: string,
    additionalParams: string -> Params,
    fetch: Request -> Fetched,
    transform: Json.Value -> Result<WeatherResponse, Thrown>,
    lat: real, lon: real, timezone: string): (s: Served)
    ensures var f := fetch(Request(RequestUrl(config, endpoint), RequestParams(lat, lon, additionalParams(timezone))));
            && s.calls == f.calls && s.delays == f.delays
            && (f.result.Failure? ==> s.result == Failure(f.result.error))
            && (f.result.Success? ==> s.result == transform(f.result.value))
  {
    var req := Request(RequestUrl(config, endpoint), RequestParams(lat, lon, additionalParams(timezone)));
    var f := fetch(req);
    match f.result
    case Failure(e) => Served(Failure(e), f.calls, f.delays)
    case Success(data) => Served(transform(data), f.calls, f.delays)
  }
}
