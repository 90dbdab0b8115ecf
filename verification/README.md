# Weather proxy — a Dafny model

This project models the backend core of a small weather web application and
the unit store of its frontend:

- the Open-Meteo weather service: request composition (base URL, endpoint
  `/v1/forecast`, coordinates plus fixed hourly/daily variable lists and a
  timezone), a fetch with a bounded linear retry (at most 3 attempts, a
  1000 ms pause only between attempts, and the last error rethrown exactly
  as the base fetch produced it: an HTTP-client error rewrapped as
  `Error("Weather API error: …")`, any other error unchanged), the
  rewrapping itself, and the validation and six-field projection of the
  forecast payload;
- the `GET /weather` route: query validation (400), the `auto` timezone
  default, success passthrough and the generic 500. It reads only
  `latitude`, `longitude` and `timezone`, and a successful response body is
  the weather payload alone;
- the random coordinate generator (two identical copies);
- the Celsius/Fahrenheit store: a one-bit state, its toggle and the
  rounding formatter.

The network is an oracle `Network = (Request, nat) -> HttpOutcome`: its
answer to the k-th call with a request, either a decoded JSON body or a
thrown error. A service call returns what it produced or threw together
with the list of calls it made and the list of pauses it took, so that the
number of attempts and the delays can be stated and proved. Payloads are a
small JSON datatype; JavaScript `undefined` is `Option.None`, and
truthiness (`!data?.hourly`) is modelled. Coordinates and temperatures are
mathematical reals; `Math.round(x)` is `Floor(x + 0.5)`; each
`Math.random()` draw is a parameter in [0, 1).

Files: `results.dfy` (Option/Result), `json.dfy` (payload values),
`rounding.dfy` (`Math.round`, four-decimal rounding), `location.dfy`,
`weather_types.dfy`, `base_weather_service.dfy`, `open_meteo_service.dfy`,
`weather_route.dfy`, `temp_unit.dfy`.

## Model

| member | source | states |
|---|---|---|
| Rounding.JsRound | src/stores/tempUnit.ts:17-19 | `Math.round(x)` is the integer n with n - 1/2 <= x < n + 1/2 (ties round up) |
| Rounding.Round4 | server/src/utils/location.ts:8-9 | `Math.round(x*10000)/10000` is a multiple of 1/10000 within 1/20000 of x |
| Location.GetRandomLocation | server/src/utils/location.ts:1-11 | both outputs lie on the 1/10000 grid, each within 1/20000 of its affine image of its own draw |
| Location.RandomLocationInRange | server/src/utils/location.ts:3-9 | for draws in [0,1), latitude is in [-60, 70] and longitude in [-180, 180] |
| Location.DrawsAreIndependent | server/src/utils/location.ts:3-5 | latitude depends only on the first draw, longitude only on the second |
| Location.EveryGridPointReachable | server/src/utils/location.ts:3-9 | every grid latitude in [-60,70] and grid longitude in [-180,180], upper ends included, is produced by some pair of draws in [0,1); with the range lemma, the outputs are exactly these grid points |
| TempUnit.InitialState | src/stores/tempUnit.ts:4-6 | the store starts in Celsius |
| TempUnit.ToggleUnit | src/stores/tempUnit.ts:9-11 | toggling flips the unit |
| TempUnit.ToggleTwiceRestores | src/stores/tempUnit.ts:9-11 | toggling twice gives back the original state |
| TempUnit.FormatTemp | src/stores/tempUnit.ts:15-21 | the result is the integer nearest to the temperature in the current unit (ties up) |
| TempUnit.FormatTempExamples | src/stores/tempUnit.ts:19 | in Fahrenheit 0 shows as 32, 100 as 212, -40 as -40; in Celsius 21.5 shows as 22 and -2.5 as -2 |
| TempUnit.FormatTempOfWholeCelsius | src/stores/tempUnit.ts:16-18 | in Celsius a whole temperature is shown unchanged |
| TempUnit.FormatTempMonotone | src/stores/tempUnit.ts:15-21 | a warmer temperature never shows lower, in either unit |
| TempUnit.FahrenheitIsConvertedCelsius | src/stores/tempUnit.ts:16-19 | Fahrenheit display equals Celsius display of the converted value |
| Json.Member | server/src/services/openMeteoService.ts:50 | `data?.key` is defined exactly when the value is an object holding that key, and is then the value under that key |
| Json.Truthy | server/src/services/openMeteoService.ts:50 | a value is truthy exactly when it is defined and is none of null, false, 0 and the empty string |
| BaseWeatherService.FetchOnce | server/src/services/baseWeatherService.ts:11-21 | a body is returned as is; an HTTP-client error becomes an `Error` whose message is the prefix followed by the original message; other errors pass unchanged; no HTTP-client error escapes |
| BaseWeatherService.RewrapKeepsMessage | server/src/services/baseWeatherService.ts:16-17 | distinct HTTP-client messages give distinct rethrown errors |
| BaseWeatherService.RequestUrl | server/src/services/baseWeatherService.ts:24 | the URL starts with the base URL and the rest is the endpoint |
| BaseWeatherService.RequestParams | server/src/services/baseWeatherService.ts:25-29 | keys are latitude, longitude and every additional key; additional values win; otherwise latitude/longitude are the coordinates |
| BaseWeatherService.GetWeatherData | server/src/services/baseWeatherService.ts:23-33 | the calls and pauses are those of the fetch alone; a thrown fetch error is passed on; otherwise the result is the transform of the fetched body |
| OpenMeteoService.AdditionalParams | server/src/services/openMeteoService.ts:32-38 | exactly the hourly list, the daily list and the given timezone |
| OpenMeteoService.TransformKeepsSeriesAligned | server/src/services/openMeteoService.ts:54-65 | hourly and daily series that are arrays of one length stay so, with the same lengths |
| OpenMeteoService.ForecastRequest | server/src/services/baseWeatherService.ts:24-29 | the URL is the base URL followed by the endpoint, and the parameters are exactly latitude, longitude, hourly, daily and timezone |
| OpenMeteoService.GetWeatherData | server/src/services/baseWeatherService.ts:23-33 | 1 to 3 calls, all with the forecast request, one fewer 1000 ms pause than calls; if the last call returned a body the result is its transform, otherwise 3 calls were made and the rewrapped error is thrown |
| OpenMeteoService.ForecastRequestShape | server/src/services/baseWeatherService.ts:23-29 | the request goes to base URL + `/v1/forecast` with exactly latitude, longitude, hourly, daily and timezone |
| OpenMeteoService.RetryFrom | server/src/services/openMeteoService.ts:8-26 | 1 to 3 calls of the same request, one 1000 ms pause between consecutive calls, every earlier attempt failed, the result is the last attempt's, and a failure only after the final attempt |
| OpenMeteoService.Retry | server/src/services/openMeteoService.ts:8-26 | from the first attempt: 1 to 3 calls of the request, a 1000 ms pause between consecutive calls, every earlier attempt failed, the result is the last attempt's, and a failure only after the third |
| OpenMeteoService.FetchWeatherData | server/src/services/openMeteoService.ts:8-26 | the loop as written computes exactly the result, calls and pauses of the recursive retry |
| OpenMeteoService.FirstSuccessWins | server/src/services/openMeteoService.ts:11-14 | if attempts before k throw and attempt k returns a body, exactly k calls are made and that body is transformed |
| OpenMeteoService.LastErrorSurfaces | server/src/services/openMeteoService.ts:16-25 | if every attempt throws, there are 3 calls, pauses [1000, 1000], and the third attempt's error is thrown |
| OpenMeteoService.InvalidPayloadNotRetried | server/src/services/baseWeatherService.ts:31-32 | a first body without the sections fails with "Invalid weather data format" after exactly one call and no pause |
| OpenMeteoService.TransformResponse | server/src/services/openMeteoService.ts:49-66 | fails, with "Invalid weather data format", exactly when `hourly` or `daily` is missing or falsy |
| OpenMeteoService.ResponseToJson | server/src/services/openMeteoService.ts:54-65 | the JSON form of a response that the transform lemmas compare against: exactly `hourly` and `daily`, each holding exactly its defined series under the upstream key names (undefined series left out, as JSON serialisation does) |
| OpenMeteoService.TransformInvertsSerialisation | server/src/services/openMeteoService.ts:54-65 | transforming a serialised response gives the response back |
| OpenMeteoService.TransformProjectsSixSeries | server/src/services/openMeteoService.ts:54-65 | the output holds only `hourly` and `daily`, each only its three series, each equal to the input's |
| OpenMeteoService.GetRandomLocation | server/src/services/openMeteoService.ts:40-47 | both outputs lie on the 1/10000 grid |
| OpenMeteoService.RandomLocationMatchesUtility | server/src/utils/location.ts:1-11 | the class method and the utility compute the same coordinate, so both stay in range |
| WeatherRoute.Falsy | server/src/routes/weather.ts:13 | a query value is rejected exactly when it is absent or the empty string |
| WeatherRoute.TimezoneOrDefault | server/src/routes/weather.ts:20 | the timezone sent is never empty: it is the given value, or `auto` when none or an empty one was given |
| WeatherRoute.HandleWeather | server/src/routes/weather.ts:9-28 | status is 200, 400 or 500; 400 exactly when a coordinate is absent or empty, then with the fixed message and no call; otherwise the first call is the forecast request; 500 carries the fixed message |
| WeatherRoute.Respond | server/src/routes/weather.ts:17-27 | status 200 exactly when the service returned, with its result as the body; 500 with the fixed message exactly when it threw; the calls are the service's |
| WeatherRoute.ResponseMirrorsService | server/src/routes/weather.ts:17-27 | a service result is sent as the 200 body unchanged; a thrown error gives 500 with the fixed message; the calls are the service's |
| WeatherRoute.ErrorDetailHidden | server/src/routes/weather.ts:24-27 | any two service calls that threw, with whatever errors, give the same response |
| WeatherRoute.TimezoneForwarded | server/src/routes/weather.ts:20 | an absent or empty timezone is sent as `auto`, any other unchanged |
| WeatherRoute.ServiceUrl | server/src/routes/weather.ts:5-7 | the route's service always requests `https://api.open-meteo.com/v1/forecast` |
| WeatherRoute.ZeroCoordinatesAccepted | server/src/routes/weather.ts:13 | "0" passes validation and the service is called at the Open-Meteo forecast URL |

## Left out

- The HTTP client itself (axios): replaced by the network oracle; its timeouts and transport behaviour are not modelled.
- `setTimeout`: pauses are recorded as their length in milliseconds; no time passes.
- `console.log` / `console.error` logging: no behavioural content.
- `Number(...)` in the route: an abstract `toNumber` parameter; NaN and JavaScript numeric parsing are not modelled, so a non-numeric coordinate string passes validation like any non-empty one.
- Express query values that are arrays or nested objects: a query parameter is modelled as an absent value or a string.
- IEEE-754 doubles: coordinates and temperatures are reals, so float rounding error, `-0` from `Math.round` and NaN truthiness are not modelled.
- The base class's own single-attempt fetch is modelled only as the step each retry attempt calls (`FetchOnce`), because the one concrete provider overrides it.
- The Pinia store's reactivity and the Vue components that call it.
- `server/src/index.ts` (Express and CORS wiring), `server/index.ts` (an older passthrough proxy), `public/sw.js` (browser cache), `nuxt.config.ts` (configuration): plumbing with no modelled behaviour.
- `server/src/types/weather.ts` has no behaviour; its shapes are the datatypes of `weather_types.dfy`.
