/** The values exchanged between the browser client and the AirLytics API, as JSON and as JavaScript reads them. */
module Wire {

  datatype Option<T> = None | Some(value: T)

  /** The outcome of a call into a library that may raise: a value, or the exception's message. */
  datatype Result<T> = Ok(value: T) | Raised(message: string)

  /** A property read in JavaScript: present with a value, or `undefined` when the object lacks it. */
  datatype Field<T> = Defined(value: T) | Undefined

  /** A scalar JSON value. */
  datatype Scalar = Num(n: real) | Str(s: string) | Null

  /** JavaScript truthiness of a scalar (NaN is not modelled). */
  predicate Truthy(v: Scalar) {
    match v
    case Num(n) => n != 0.0
    case Str(s) => s != ""
    case Null => false
  }

  /** Truthiness of a property read: `undefined` is falsy. */
  predicate FieldTruthy(f: Field<Scalar>) {
    f.Defined? && Truthy(f.value)
  }

  /** The body of POST /predict: `payload` in the client, `AQIRequest` in the API. */
  datatype PredictionRequest = PredictionRequest(
    state: string, month: int,
    pm25: real, pm10: real, no2: real, co: real, so2: real, o3: real)

  /** The six pollutant readings of a request, in the order PM2.5, PM10, NO2, CO, SO2, O3. */
  function Pollutants(p: PredictionRequest): seq<real> {
    [p.pm25, p.pm10, p.no2, p.co, p.so2, p.o3]
  }

  /** The bodies POST /predict answers with. */
  datatype PredictBody =
    | Prediction(predictedAqi: real, airQualityStatus: string, inputCity: string)  // status 200
    | PredictError(error: string)                                                  // status 200: the handler caught an exception
    | Detail(detail: string)                                                       // status 500: HTTPException

  function PredictedAqi(b: PredictBody): Field<real> {
    if b.Prediction? then Defined(b.predictedAqi) else Undefined
  }

  function AirQualityStatus(b: PredictBody): Field<string> {
    if b.Prediction? then Defined(b.airQualityStatus) else Undefined
  }

  function InputCity(b: PredictBody): Field<string> {
    if b.Prediction? then Defined(b.inputCity) else Undefined
  }

  /** The bodies GET /weather/{state_name} answers with (always with status 200). */
  datatype WeatherBody = Temperature(temperature: Scalar) | WeatherError(error: string)

  function TemperatureOf(b: WeatherBody): Field<Scalar> {
    if b.Temperature? then Defined(b.temperature) else Undefined
  }

  /** An HTTP response: status code and JSON body. */
  datatype Http<B> = Http(status: int, body: B)

  /** `Response.ok` of the Fetch API: a status in the range 200-299. */
  predicate IsOk(status: int) {
    200 <= status <= 299
  }
}
