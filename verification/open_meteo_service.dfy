/** `OpenMeteoService` of `server/src/services/openMeteoService.ts`: the one
    concrete provider. It supplies the endpoint and fixed parameters, replaces
    the fetch by a bounded linear retry, and projects the payload onto the
    response shape. Waiting is not performed: each pause is recorded as its
    length in milliseconds. */
module OpenMeteoService {
  import opened Results
  import opened WeatherTypes
  import Json
  import Base = BaseWeatherService
  import Location
  import Rounding

  const MaxRetries: nat := 3
  const RetryDelay: nat := 1000
  const Endpoint := "/v1/forecast"
  const InvalidFormat := "Invalid weather data format"

  /** `getAdditionalParams`: the fixed hourly and daily variable lists and the
      caller's timezone, unchanged. */
  function AdditionalParams(timezone: string): (p: Params)
    ensures p.Keys == {"hourly", "daily", "timezone"}
    ensures p["hourly"] == ListParam(["temperature_2m", "weathercode"])
    ensures p["daily"] == ListParam(["temperature_2m_max", "temperature_2m_min"])
    ensures p["timezone"] == StringParam(timezone)
  {
    map[
      "hourly" := ListParam(["temperature_2m", "weathercode"]),
      "daily" := ListParam(["temperature_2m_max", "temperature_2m_min"]),
      "timezone" := StringParam(timezone)]
  }

  // ---------------------------------------------------------------------------
  // Retry

  /** The calls still allowed from attempt number `attempt` on: make one; stop
      on success or after the last attempt; otherwise pause once and go on. */
  function RetryFrom(req: Request, network: Network, attempt: nat): (f: Fetched)
    requires 1 <= attempt <= MaxRetries
    decreases MaxRetries - attempt
    ensures 1 <= |f.calls| <= MaxRetries - attempt + 1
    ensures forall i :: 0 <= i < |f.calls| ==> f.calls[i] == req
    ensures |f.delays| == |f.calls| - 1
    ensures forall i :: 0 <= i < |f.delays| ==> f.delays[i] == RetryDelay
    ensures forall i :: attempt <= i < attempt + |f.calls| - 1 ==> Base.FetchOnce(network(req, i)).Failure?
    ensures f.result == Base.FetchOnce(network(req, attempt + |f.calls| - 1))
    ensures f.result.Failure? ==> attempt + |f.calls| - 1 == MaxRetries
  {
    var r := Base.FetchOnce(network(req, attempt));
    if r.Success? || attempt == MaxRetries then
      Fetched(r, [req], [])
    else
      var rest := RetryFrom(req, network, attempt + 1);
      Fetched(rest.result, [req] + rest.calls, [RetryDelay] + rest.delays)
  }

  /** The overriding `fetchWeatherData`, as a whole. */
  function Retry(req: Request, network: Network): (f: Fetched)
    ensures 1 <= |f.calls| <= MaxRetries
    ensures forall i :: 0 <= i < |f.calls| ==> f.calls[i] == req
    ensures |f.delays| == |f.calls| - 1
    ensures forall i :: 0 <= i < |f.delays| ==> f.delays[i] == RetryDelay
    ensures forall i :: 1 <= i < |f.calls| ==> Base.FetchOnce(network(req, i)).Failure?
    ensures f.result == Base.FetchOnce(network(req, |f.calls|))
    ensures f.result.Failure? ==> |f.calls| == MaxRetries
  {
    RetryFrom(req, network, 1)
  }

  /** What a run of the retry that has already made `calls` and `delays` will
      end with, when attempt number `attempt` is the next one. */
  function Resume(req: Request, network: Network, attempt: nat, calls: seq<Request>, delays: seq<nat>): Fetched
    requires 1 <= attempt <= MaxRetries
  {
    var rest := RetryFrom(req, network, attempt);
    Fetched(rest.result, calls + rest.calls, delays + rest.delays)
  }

  /** A successful attempt ends the run with its own result and one more call. */
  lemma ResumeAfterSuccess(req: Request, network: Network, attempt: nat, calls: seq<Request>, delays: seq<nat>)
    requires 1 <= attempt <= MaxRetries
    requires Base.FetchOnce(network(req, attempt)).Success?
    ensures Resume(req, network, attempt, calls, delays)
         == Fetched(Base.FetchOnce(network(req, attempt)), calls + [req], delays)
  {
    assert RetryFrom(req, network, attempt) == Fetched(Base.FetchOnce(network(req, attempt)), [req], []);
    assert delays + [] == delays;
  }

  /** A failed attempt before the last adds one call and one pause and hands
      over to the next attempt. */
  lemma ResumeAfterFailure(req: Request, network: Network, attempt: nat, calls: seq<Request>, delays: seq<nat>)
    requires 1 <= attempt < MaxRetries
    requires Base.FetchOnce(network(req, attempt)).Failure?
    ensures Resume(req, network, attempt, calls, delays)
         == Resume(req, network, attempt + 1, calls + [req], delays + [RetryDelay])
  {
    var next := RetryFrom(req, network, attempt + 1);
    assert RetryFrom(req, network, attempt) == Fetched(next.result, [req] + next.calls, [RetryDelay] + next.delays);
    assert calls + ([req] + next.calls) == (calls + [req]) + next.calls;
    assert delays + ([RetryDelay] + next.delays) == (delays + [RetryDelay]) + next.delays;
  }

  /** A failed last attempt adds one call, no pause, and its error is the result. */
  lemma ResumeAfterLastFailure(req: Request, network: Network, calls: seq<Request>, delays: seq<nat>)
    requires Base.FetchOnce(network(req, MaxRetries)).Failure?
    ensures Resume(req, network, MaxRetries, calls, delays)
         == Fetched(Failure(Base.FetchOnce(network(req, MaxRetries)).error), calls + [req], delays)
  {
    assert RetryFrom(req, network, MaxRetries) == Fetched(Base.FetchOnce(network(req, MaxRetries)), [req], []);
    assert delays + [] == delays;
  }

  /** `fetchWeatherData` as the loop it is written as: attempts numbered from 1
      to `MaxRetries`, each calling the base fetch; the first success is
      returned; a failure is remembered and followed by a pause unless it was
      the last attempt; after the loop the remembered error is thrown. */
  method FetchWeatherData(req: Request, network: Network)
    returns (result: Result<Json.Value, Thrown>, calls: seq<Request>, delays: seq<nat>)
    ensures Fetched(result, calls, delays) == Retry(req, network)
  {
    var lastError: Option<Thrown> := None;
    calls, delays := [], [];
    var attempt: nat := 1;
    assert Resume(req, network, 1, calls, delays) == Retry(req, network);
    while attempt <= MaxRetries
      invariant 1 <= attempt <= MaxRetries + 1
      invariant attempt <= MaxRetries ==> Resume(req, network, attempt, calls, delays) == Retry(req, network)
      invariant attempt > MaxRetries ==>
        lastError.Some? && Fetched(Failure(lastError.value), calls, delays) == Retry(req, network)
    {
      var r := Base.FetchOnce(network(req, attempt));
      if r.Success? {
        ResumeAfterSuccess(req, network, attempt, calls, delays);
        calls := calls + [req];
        result := r;
        return;
      }
      lastError := Some(r.error);
      if attempt < MaxRetries {
        ResumeAfterFailure(req, network, attempt, calls, delays);
        delays := delays + [RetryDelay];
      } else {
        ResumeAfterLastFailure(req, network, calls, delays);
      }
      calls := calls + [req];
      attempt := attempt + 1;
    }
    result := Failure(lastError.value);
  }

  // ---------------------------------------------------------------------------
  // Payload

  /** The payload has the two sections `transformResponse` insists on. */
  predicate HasSections(data: Json.Value) {
    Json.Truthy(Json.Member(data, "hourly")) && Json.Truthy(Json.Member(data, "daily"))
  }

  /** `transformResponse`: rejects a payload whose `hourly` or `daily` is
      missing or falsy, and otherwise copies the three hourly and three daily
      series, whatever they hold, into the response shape. */
  function TransformResponse(data: Json.Value): (r: Result<WeatherResponse, Thrown>)
    ensures r.Failure? <==> !HasSections(data)
    ensures r.Failure? ==> r.error == Error(InvalidFormat)
  {
    var hourly := Json.Member(data, "hourly");
    var daily := Json.Member(data, "daily");
    if !Json.Truthy(hourly) || !Json.Truthy(daily) then
      Failure(Error(InvalidFormat))
    else
      Success(WeatherResponse(
        HourlyData(
          Json.MemberOf(hourly, "time"),
          Json.MemberOf(hourly, "temperature_2m"),
          Json.MemberOf(hourly, "weathercode")),
        DailyData(
          Json.MemberOf(daily, "time"),
          Json.MemberOf(daily, "temperature_2m_max"),
          Json.MemberOf(daily, "temperature_2m_min"))))
  }

  /** The response as it is sent: undefined series are left out. */
  function ResponseToJson(w: WeatherResponse): (j: Json.Value)
    ensures j.Obj? && j.fields.Keys == {"hourly", "daily"}
    ensures j.fields["hourly"].Obj? && j.fields["daily"].Obj?
    ensures var h := j.fields["hourly"].fields;
            && h.Keys <= {"time", "temperature_2m", "weathercode"}
            && ("time" in h <==> w.hourly.time.Some?)
            && ("temperature_2m" in h <==> w.hourly.temperature2m.Some?)
            && ("weathercode" in h <==> w.hourly.weatherCode.Some?)
    ensures var d := j.fields["daily"].fields;
            && d.Keys <= {"time", "temperature_2m_max", "temperature_2m_min"}
            && ("time" in d <==> w.daily.time.Some?)
            && ("temperature_2m_max" in d <==> w.daily.temperature2mMax.Some?)
            && ("temperature_2m_min" in d <==> w.daily.temperature2mMin.Some?)
  {
    Json.Obj(map[
      "hourly" := Json.Obj(
        Json.PutDefined(Json.PutDefined(Json.PutDefined(map[],
          "time", w.hourly.time),
          "temperature_2m", w.hourly.temperature2m),
          "weathercode", w.hourly.weatherCode)),
      "daily" := Json.Obj(
        Json.PutDefined(Json.PutDefined(Json.PutDefined(map[],
          "time", w.daily.time),
          "temperature_2m_max", w.daily.temperature2mMax),
          "temperature_2m_min", w.daily.temperature2mMin))])
  }

  /** Sending a response and transforming it again gives it back. */
  lemma TransformInvertsSerialisation(w: WeatherResponse)
    ensures TransformResponse(ResponseToJson(w)) == Success(w)
  {
  }

  /** The transformed payload carries exactly the six series of the input,
      each unchanged, under the same keys, and nothing else. */
  lemma TransformProjectsSixSeries(data: Json.Value)
    requires HasSections(data)
    ensures var out := ResponseToJson(TransformResponse(data).value);
            var inH, inD := Json.Member(data, "hourly"), Json.Member(data, "daily");
            var outH, outD := Json.Member(out, "hourly"), Json.Member(out, "daily");
            && out.fields.Keys == {"hourly", "daily"}
            && outH.value.fields.Keys <= {"time", "temperature_2m", "weathercode"}
            && outD.value.fields.Keys <= {"time", "temperature_2m_max", "temperature_2m_min"}
            && Json.MemberOf(outH, "time") == Json.MemberOf(inH, "time")
            && Json.MemberOf(outH, "temperature_2m") == Json.MemberOf(inH, "temperature_2m")
            && Json.MemberOf(outH, "weathercode") == Json.MemberOf(inH, "weathercode")
            && Json.MemberOf(outD, "time") == Json.MemberOf(inD, "time")
            && Json.MemberOf(outD, "temperature_2m_max") == Json.MemberOf(inD, "temperature_2m_max")
            && Json.MemberOf(outD, "temperature_2m_min") == Json.MemberOf(inD, "temperature_2m_min")
  {
  }

  /** Three series that are arrays of one common length. */
  predicate Aligned(a: Option<Json.Value>, b: Option<Json.Value>, c: Option<Json.Value>) {
    && a.Some? && a.value.Arr? && b.Some? && b.value.Arr? && c.Some? && c.value.Arr?
    && |a.value.items| == |b.value.items| == |c.value.items|
  }

  /** A payload whose hourly and daily series are aligned gives a response
      whose series are aligned, with the same lengths: the transform neither
      checks nor repairs lengths, it keeps them. */
  lemma TransformKeepsSeriesAligned(data: Json.Value)
    requires HasSections(data)
    requires var h := Json.Member(data, "hourly");
             Aligned(Json.MemberOf(h, "time"), Json.MemberOf(h, "temperature_2m"), Json.MemberOf(h, "weathercode"))
    requires var d := Json.Member(data, "daily");
             Aligned(Json.MemberOf(d, "time"), Json.MemberOf(d, "temperature_2m_max"), Json.MemberOf(d, "temperature_2m_min"))
    ensures var w := TransformResponse(data).value;
            && Aligned(w.hourly.time, w.hourly.temperature2m, w.hourly.weatherCode)
            && Aligned(w.daily.time, w.daily.temperature2mMax, w.daily.temperature2mMin)
            && |w.hourly.time.value.items| == |Json.MemberOf(Json.Member(data, "hourly"), "time").value.items|
            && |w.daily.time.value.items| == |Json.MemberOf(Json.Member(data, "daily"), "time").value.items|
  {
  }

  // ---------------------------------------------------------------------------
  // The service call

  /** The one request every attempt sends. */
  function ForecastRequest(config: WeatherServiceConfig, lat: real, lon: real, timezone: string): (req: Request)
    ensures |req.url| == |config.baseUrl| + |Endpoint|
    ensures req.url[..|config.baseUrl|] == config.baseUrl && req.url[|config.baseUrl|..] == Endpoint
    ensures req.params.Keys == {"latitude", "longitude", "hourly", "daily", "timezone"}
  {
    Request(Base.RequestUrl(config, Endpoint), Base.RequestParams(lat, lon, AdditionalParams(timezone)))
  }

  /** `getWeatherData` of the template with this provider's hooks: the retrying
      fetch, then the transform. */
  function GetWeatherData(config: WeatherServiceConfig, lat: real, lon: real, timezone: string, network: Network): (s: Served)
    ensures 1 <= |s.calls| <= MaxRetries
    ensures forall i :: 0 <= i < |s.calls| ==> s.calls[i] == ForecastRequest(config, lat, lon, timezone)
    ensures |s.delays| == |s.calls| - 1
    ensures forall i :: 0 <= i < |s.delays| ==> s.delays[i] == RetryDelay
    ensures var last := network(ForecastRequest(config, lat, lon, timezone), |s.calls|);
            && (last.Received? ==> s.result == TransformResponse(last.data))
            && (last.Raised? ==> |s.calls| == MaxRetries && s.result == Failure(Base.FetchOnce(last).error))
  {
    Base.GetWeatherData(config, Endpoint, AdditionalParams, req => Retry(req, network), TransformResponse, lat, lon, timezone)
  }

  /** The request goes to the base URL followed by `/v1/forecast`, and carries
      exactly the coordinates, the two variable lists and the timezone. */
  lemma ForecastRequestShape(config: WeatherServiceConfig, lat: real, lon: real, timezone: string)
    ensures var req := ForecastRequest(config, lat, lon, timezone);
            && req.url == config.baseUrl + "/v1/forecast"
            && req.params.Keys == {"latitude", "longitude", "hourly", "daily", "timezone"}
            && req.params["latitude"] == NumberParam(lat)
            && req.params["longitude"] == NumberParam(lon)
            && req.params["hourly"] == ListParam(["temperature_2m", "weathercode"])
            && req.params["daily"] == ListParam(["temperature_2m_max", "temperature_2m_min"])
            && req.params["timezone"] == StringParam(timezone)
  {
    var extra := AdditionalParams(timezone);
    assert "latitude" !in extra.Keys && "longitude" !in extra.Keys;
  }

  /** When attempts before the k-th throw and the k-th returns a body, exactly
      k calls are made and that body is transformed. */
  lemma FirstSuccessWins(config: WeatherServiceConfig, lat: real, lon: real, timezone: string, network: Network,
                         k: nat, data: Json.Value)
    requires 1 <= k <= MaxRetries
    requires forall i :: 1 <= i < k ==> network(ForecastRequest(config, lat, lon, timezone), i).Raised?
    requires network(ForecastRequest(config, lat, lon, timezone), k) == Received(data)
    ensures var s := GetWeatherData(config, lat, lon, timezone, network);
            |s.calls| == k && s.result == TransformResponse(data)
  {
    var req := ForecastRequest(config, lat, lon, timezone);
    var f := Retry(req, network);
  }

  /** When every attempt throws: three calls, two pauses of one second, and
      the error of the third attempt (after the base rewrapping) is thrown. */
  lemma LastErrorSurfaces(config: WeatherServiceConfig, lat: real, lon: real, timezone: string, network: Network)
    requires forall i :: 1 <= i <= MaxRetries ==> network(ForecastRequest(config, lat, lon, timezone), i).Raised?
    ensures var s := GetWeatherData(config, lat, lon, timezone, network);
            var req := ForecastRequest(config, lat, lon, timezone);
            && s.calls == [req, req, req]
            && s.delays == [1000, 1000]
            && s.result == Failure(Base.FetchOnce(network(req, MaxRetries)).error)
  {
    var req := ForecastRequest(config, lat, lon, timezone);
    var f := Retry(req, network);
    assert Base.FetchOnce(network(req, |f.calls|)).Failure?;
  }

  /** A body without the required sections fails the request as a format
      error after a single call: the transform runs after the fetch has
      returned, outside the retry loop. */
  lemma InvalidPayloadNotRetried(config: WeatherServiceConfig, lat: real, lon: real, timezone: string, network: Network,
                                 data: Json.Value)
    requires network(ForecastRequest(config, lat, lon, timezone), 1) == Received(data)
    requires !HasSections(data)
    ensures var s := GetWeatherData(config, lat, lon, timezone, network);
            && s.calls == [ForecastRequest(config, lat, lon, timezone)]
            && s.delays == []
            && s.result == Failure(Error(InvalidFormat))
  {
    FirstSuccessWins(config, lat, lon, timezone, network, 1, data);
  }

  // ---------------------------------------------------------------------------
  // Random location

  /** `getRandomLocation` of this class, with its two `Math.random()` draws as
      parameters. */
  function GetRandomLocation(latDraw: real, lonDraw: real): (c: Location.Coordinate)
    ensures Rounding.OnGrid(c.lat) && Rounding.OnGrid(c.lon)
  {
    Location.Coordinate(Rounding.Round4(latDraw * 130.0 - 60.0), Rounding.Round4(lonDraw * 360.0 - 180.0))
  }

  /** It computes the same coordinate as the utility of the same name, and so
      inherits its range. */
  lemma RandomLocationMatchesUtility(latDraw: real, lonDraw: real)
    ensures GetRandomLocation(latDraw, lonDraw) == Location.GetRandomLocation(latDraw, lonDraw)
    ensures Location.IsDraw(latDraw) && Location.IsDraw(lonDraw) ==>
              Location.InSamplingRange(GetRandomLocation(latDraw, lonDraw))
  {
    if Location.IsDraw(latDraw) && Location.IsDraw(lonDraw) {
      Location.RandomLocationInRange(latDraw, lonDraw);
    }
  }
}
