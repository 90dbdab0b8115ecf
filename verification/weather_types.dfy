/** Shapes of `server/src/types/weather.ts`, plus the request and the
    outcomes of the HTTP client that the services exchange. */
module WeatherTypes {
  import opened Results
  import Json

  /** Each field is whatever the upstream payload held under that key, or
      undefined: the service copies these without looking inside. */
  datatype HourlyData = HourlyData(
    time: Option<Json.Value>,
    temperature2m: Option<Json.Value>,
    weatherCode: Option<Json.Value>)

  datatype DailyData = DailyData(
    time: Option<Json.Value>,
    temperature2mMax: Option<Json.Value>,
    temperature2mMin: Option<Json.Value>)

  datatype WeatherResponse = WeatherResponse(hourly: HourlyData, daily: DailyData)

  /** `timezone` is part of the configuration shape but no operation reads it. */
  datatype WeatherServiceConfig = WeatherServiceConfig(baseUrl: string, timezone: Option<string>)

  /** A query parameter as the HTTP client serialises it. */
  datatype ParamValue = NumberParam(n: real) | StringParam(s: string) | ListParam(items: seq<string>)

  type Params = map<string, ParamValue>

  /** One `GET url?params`. */
  datatype Request = Request(url: string, params: Params)

  /** What can be thrown: an error raised by the HTTP client, or any other error. */
  datatype Thrown = AxiosError(message: string) | Error(message: string)

  /** What the network does with one call: a decoded body or a thrown error. */
  datatype HttpOutcome = Received(data: Json.Value) | Raised(error: Thrown)

  /** The network, as an oracle: its answer to the k-th call (from 1) with a request. */
  type Network = (Request, nat) -> HttpOutcome

  /** A fetch as observed from outside: what it returned or threw, the calls it
      made in order, and the pauses (in milliseconds) it took between them. */
  datatype Fetched = Fetched(result: Result<Json.Value, Thrown>, calls: seq<Request>, delays: seq<nat>)

  /** The same for a whole service call, whose value is the transformed payload. */
  datatype Served = Served(result: Result<WeatherResponse, Thrown>, calls: seq<Request>, delays: seq<nat>)
}
