/** The API (backend/main.py): the city table and the weather lookup, and the status rule of the prediction endpoint. */
module Backend {
  import opened Wire
  import opened Bands

  datatype Coords = Coords(lat: real, lon: real)

  /** `CITY_COORDS`, in its insertion order (the order a Python dict iterates in). */
  const CityCoords: seq<(string, Coords)> := [
    ("Delhi", Coords(28.6139, 77.2090)),
    ("Maharashtra", Coords(19.0760, 72.8777)),
    ("West Bengal", Coords(22.5726, 88.3639)),
    ("Tamil Nadu", Coords(13.0827, 80.2707)),
    ("Karnataka", Coords(12.9716, 77.5946)),
    ("Ahmedabad", Coords(23.0225, 72.5714)),
    ("Aizawl", Coords(23.7307, 92.7173)),
    ("Amaravati", Coords(16.573, 80.3575)),
    ("Amritsar", Coords(31.6340, 74.8723)),
    ("Bengaluru", Coords(12.9716, 77.5946)),
    ("Bhopal", Coords(23.2599, 77.4126)),
    ("Brajrajnagar", Coords(21.82, 83.92)),
    ("Chandigarh", Coords(30.7333, 76.7794)),
    ("Chennai", Coords(13.0827, 80.2707)),
    ("Coimbatore", Coords(11.0168, 76.9558)),
    ("Ernakulam", Coords(9.9816, 76.2999)),
    ("Gurugram", Coords(28.4595, 77.0266)),
    ("Guwahati", Coords(26.1445, 91.7362)),
    ("Hyderabad", Coords(17.3850, 78.4867)),
    ("Jaipur", Coords(26.9124, 75.7873)),
    ("Jorapokhar", Coords(23.70, 86.41)),
    ("Kochi", Coords(9.9312, 76.2673)),
    ("Kolkata", Coords(22.5726, 88.3639)),
    ("Lucknow", Coords(26.8467, 80.9462)),
    ("Mumbai", Coords(19.0760, 72.8777)),
    ("Patna", Coords(25.5941, 85.1376)),
    ("Shillong", Coords(25.5788, 91.8933)),
    ("Talcher", Coords(20.95, 85.23)),
    ("Thiruvananthapuram", Coords(8.5241, 76.9366)),
    ("Visakhapatnam", Coords(17.6868, 83.2185))
  ]

  /** ASCII lower-casing of one character. */
  function LowerChar(c: char): char {
    if 'A' <= c <= 'Z' then (c as int + 32) as char else c
  }

  /** `str.lower`, restricted to ASCII letters. */
  function Lower(s: string): (r: string)
    ensures |r| == |s|
    ensures forall i :: 0 <= i < |s| ==> r[i] == LowerChar(s[i])
  {
    seq(|s|, i requires 0 <= i < |s| => LowerChar(s[i]))
  }

  /** Lower-casing folds case: no upper-case ASCII letter is left, upper-case letters become their lower-case
      partners, every other character is kept, and lower-casing again changes nothing. */
  lemma LowerFoldsCase(s: string)
    ensures forall i :: 0 <= i < |s| ==> !('A' <= Lower(s)[i] <= 'Z')
    ensures forall i :: 0 <= i < |s| && 'A' <= s[i] <= 'Z' ==> Lower(s)[i] as int == s[i] as int + 32
    ensures forall i :: 0 <= i < |s| && !('A' <= s[i] <= 'Z') ==> Lower(s)[i] == s[i]
    ensures Lower(Lower(s)) == Lower(s)
  {
  }

  /** No two keys of the table are equal once lower-cased. */
  ghost predicate LowerDistinct(table: seq<(string, Coords)>) {
    forall i, j :: 0 <= i < j < |table| ==> Lower(table[i].0) != Lower(table[j].0)
  }

  /** The key the case-insensitive search settles on: the first key, in table order, whose lower-case form
      equals that of `name`. */
  function FirstMatch(table: seq<(string, Coords)>, name: string): (r: Option<string>)
    ensures r.None? <==> forall i :: 0 <= i < |table| ==> Lower(table[i].0) != Lower(name)
    ensures r.Some? ==> exists i :: 0 <= i < |table| && table[i].0 == r.value && Lower(table[i].0) == Lower(name)
                                      && forall j :: 0 <= j < i ==> Lower(table[j].0) != Lower(name)
  {
    if table == [] then None
    else if Lower(table[0].0) == Lower(name) then Some(table[0].0)
    else
      var r := FirstMatch(table[1..], name);
      assert r.Some? ==> exists i :: 0 <= i < |table| && table[i].0 == r.value && Lower(table[i].0) == Lower(name)
                                      && forall j :: 0 <= j < i ==> Lower(table[j].0) != Lower(name) by {
        if r.Some? {
          var i :| 0 <= i < |table[1..]| && table[1..][i].0 == r.value && Lower(table[1..][i].0) == Lower(name)
                   && forall j :: 0 <= j < i ==> Lower(table[1..][j].0) != Lower(name);
          assert forall j :: 0 <= j < i + 1 ==> Lower(table[j].0) != Lower(name) by {
            forall j | 0 <= j < i + 1 ensures Lower(table[j].0) != Lower(name) {
              if j > 0 { assert table[j] == table[1..][j - 1]; }
            }
          }
        }
      }
      r
  }

  /** `CITY_COORDS[key]`: the coordinates stored under exactly `key`. */
  function Get(table: seq<(string, Coords)>, key: string): (r: Option<Coords>)
    ensures r.Some? <==> exists i :: 0 <= i < |table| && table[i].0 == key
    ensures r.Some? ==> exists i :: 0 <= i < |table| && table[i] == (key, r.value)
  {
    if table == [] then None
    else if table[0].0 == key then Some(table[0].1)
    else
      var r := Get(table[1..], key);
      assert r.Some? ==> exists i :: 0 <= i < |table| && table[i] == (key, r.value) by {
        if r.Some? {
          var i :| 0 <= i < |table[1..]| && table[1..][i] == (key, r.value);
          assert table[i + 1] == (key, r.value);
        }
      }
      assert (exists i :: 0 <= i < |table| && table[i].0 == key) ==> exists i :: 0 <= i < |table[1..]| && table[1..][i].0 == key by {
        if exists i :: 0 <= i < |table| && table[i].0 == key {
          var i :| 0 <= i < |table| && table[i].0 == key;
          assert table[1..][i - 1].0 == key;
        }
      }
      r
  }

  /** The search loop of `get_weather` over a table: walk the keys in order and stop at the first
      case-insensitive match. */
  method FindCityKey(table: seq<(string, Coords)>, stateName: string) returns (cityKey: Option<string>)
    ensures cityKey == FirstMatch(table, stateName)
  {
    cityKey := None;
    var i := 0;
    while i < |table|
      invariant 0 <= i <= |table|
      invariant FirstMatch(table[i..], stateName) == FirstMatch(table, stateName)
    {
      var key := table[i].0;
      if Lower(key) == Lower(stateName) {
        cityKey := Some(key);
        break;
      }
      assert table[i..][1..] == table[i + 1..];
      i := i + 1;
    }
  }

  /** The keys of a table, as a set. */
  ghost function KeySet(table: seq<(string, Coords)>): set<string> {
    set i | 0 <= i < |table| :: table[i].0
  }

  /** When keys are distinct ignoring case, a key matching `name` is the one the search returns, wherever
      it stands in the table. */
  lemma UniqueMatch(table: seq<(string, Coords)>, name: string, i: nat)
    requires LowerDistinct(table)
    requires i < |table| && Lower(table[i].0) == Lower(name)
    ensures FirstMatch(table, name) == Some(table[i].0)
  {
    var r := FirstMatch(table, name);
    var j :| 0 <= j < |table| && table[j].0 == r.value && Lower(table[j].0) == Lower(name)
             && forall k :: 0 <= k < j ==> Lower(table[k].0) != Lower(name);
  }

  /** A key written exactly as it is stored is found, and with case-distinct keys it is that key. */
  lemma ExactKeyFound(table: seq<(string, Coords)>, i: nat)
    requires LowerDistinct(table) && i < |table|
    ensures FirstMatch(table, table[i].0) == Some(table[i].0)
  {
    UniqueMatch(table, table[i].0, i);
  }

  /** With case-distinct keys, reordering the table does not change what the search returns. */
  lemma LookupIgnoresOrder(a: seq<(string, Coords)>, b: seq<(string, Coords)>, name: string)
    requires LowerDistinct(a) && LowerDistinct(b) && KeySet(a) == KeySet(b)
    ensures FirstMatch(a, name) == FirstMatch(b, name)
  {
    var r := FirstMatch(a, name);
    if r.Some? {
      var i :| 0 <= i < |a| && a[i].0 == r.value && Lower(a[i].0) == Lower(name)
               && forall k :: 0 <= k < i ==> Lower(a[k].0) != Lower(name);
      assert a[i].0 in KeySet(a);
      var j :| 0 <= j < |b| && b[j].0 == a[i].0;
      UniqueMatch(b, name, j);
    } else {
      forall j | 0 <= j < |b| ensures Lower(b[j].0) != Lower(name) {
        assert b[j].0 in KeySet(a);
      }
    }
  }

  /** What the Open-Meteo call gives `get_weather`: an exception from `requests` (or from decoding its body),
      or a status code with the `current_weather.temperature` value, absent when the body lacks it. */
  datatype WeatherReply = RequestFailed(message: string) | Responded(statusCode: int, temperature: Option<Scalar>)

  /** `get_weather`: the body it returns and the coordinates it asks Open-Meteo for (None: no outbound request). */
  method GetWeather(stateName: string, reply: WeatherReply) returns (body: WeatherBody, request: Option<Coords>)
    ensures FirstMatch(CityCoords, stateName).None? ==>
              request.None? && body == WeatherError("Coordinates not found for " + stateName)
    ensures FirstMatch(CityCoords, stateName).Some? ==>
              request.Some? && request == Get(CityCoords, FirstMatch(CityCoords, stateName).value)
    ensures request.Some? && reply.RequestFailed? ==> body == WeatherError(reply.message)
    ensures request.Some? && reply.Responded? && reply.statusCode == 200 ==>
              body == Temperature(if reply.temperature.Some? then reply.temperature.value else Str("N/A"))
    ensures request.Some? && reply.Responded? && reply.statusCode != 200 ==> body == WeatherError("Weather API failed")
  {
    var cityKey := FindCityKey(CityCoords, stateName);
    if cityKey.None? {
      return WeatherError("Coordinates not found for " + stateName), None;
    }
    request := Get(CityCoords, cityKey.value);
    match reply
    case RequestFailed(message) =>
      body := WeatherError(message);
    case Responded(statusCode, temperature) =>
      if statusCode == 200 {
        body := Temperature(if temperature.Some? then temperature.value else Str("N/A"));
      } else {
        body := WeatherError("Weather API failed");
      }
  }

  /** The feature row handed to the model. */
  datatype Features = Features(stateCode: int, month: int, pm25: real, pm10: real, no2: real, co: real, so2: real, o3: real)

  /** The encoded state: the encoder's code, or 0 when there is no encoder or it rejects the state. */
  function StateCode(state: string, encoder: Option<string -> Result<int>>): (code: int)
    ensures encoder.None? ==> code == 0
    ensures encoder.Some? && encoder.value(state).Raised? ==> code == 0
    ensures encoder.Some? && encoder.value(state).Ok? ==> code == encoder.value(state).value
  {
    match encoder
    case None => 0
    case Some(transform) =>
      match transform(state)
      case Ok(c) => c
      case Raised(_) => 0
  }

  /** The single-row DataFrame `predict_aqi` builds: the encoded state, the month, and the six pollutants
      in request order. */
  function FeaturesOf(data: PredictionRequest, encoder: Option<string -> Result<int>>): (f: Features)
    ensures [f.pm25, f.pm10, f.no2, f.co, f.so2, f.o3] == Pollutants(data)
    ensures f.month == data.month && f.stateCode == StateCode(data.state, encoder)
  {
    Features(StateCode(data.state, encoder), data.month, data.pm25, data.pm10, data.no2, data.co, data.so2, data.o3)
  }

  /** The model sees the state only through its code: two requests that differ only in `state` give the
      same feature row when their codes agree, and in particular when there is no encoder or it rejects
      both states. */
  lemma FeaturesSeeStateOnlyAsCode(d1: PredictionRequest, d2: PredictionRequest, encoder: Option<string -> Result<int>>)
    requires d1.(state := d2.state) == d2
    ensures StateCode(d1.state, encoder) == StateCode(d2.state, encoder) <==> FeaturesOf(d1, encoder) == FeaturesOf(d2, encoder)
    ensures encoder.None? || (encoder.value(d1.state).Raised? && encoder.value(d2.state).Raised?) ==>
              FeaturesOf(d1, encoder) == FeaturesOf(d2, encoder)
  {
  }

  /** The status rule of `predict_aqi`: start at Good and overwrite the label for each threshold exceeded. */
  method PredictionStatus(prediction: real) returns (status: string)
    ensures status == Label(Classify(prediction))
  {
    status := "Good";
    if prediction > 50.0 { status := "Satisfactory"; }
    if prediction > 100.0 { status := "Moderate"; }
    if prediction > 200.0 { status := "Poor"; }
    if prediction > 300.0 { status := "Very Poor"; }
    if prediction > 400.0 { status := "Severe"; }
    ClassifyRanges(prediction);
  }

  const ModelMissing := "Model missing. Git LFS issue?"

  /** `predict_aqi`. `model` is the loaded model's `predict` (None: no model file), `encoder` the loaded encoder's
      `transform` (None: no encoder file), `round2` stands for `round(float(.), 2)`. */
  method PredictAqi(data: PredictionRequest, model: Option<Features -> Result<real>>,
                    encoder: Option<string -> Result<int>>, round2: real -> real)
    returns (response: Http<PredictBody>)
    ensures model.None? ==> response == Http(500, Detail(ModelMissing))
    ensures model.Some? ==> response.status == 200
    ensures model.Some? && model.value(FeaturesOf(data, encoder)).Raised? ==>
              response.body == PredictError(model.value(FeaturesOf(data, encoder)).message)
    ensures model.Some? && model.value(FeaturesOf(data, encoder)).Ok? ==>
              var prediction := model.value(FeaturesOf(data, encoder)).value;
              response.body == Prediction(round2(prediction), Label(Classify(prediction)), data.state)
  {
    if model.None? {
      return Http(500, Detail(ModelMissing));
    }
    var features := FeaturesOf(data, encoder);
    match model.value(features)
    case Raised(message) =>
      response := Http(200, PredictError(message));
    case Ok(prediction) =>
      var status := PredictionStatus(prediction);
      response := Http(200, Prediction(round2(prediction), status, data.state));
  }

  /** Without an encoder, the prediction for a request does not depend on its `state`: two requests that
      differ only in `state` get the same predicted AQI and status, and only `input_city` tells them apart. */
  method StateIgnoredWithoutEncoder(d1: PredictionRequest, d2: PredictionRequest, model: Features -> Result<real>,
                                    round2: real -> real)
    returns (r1: Http<PredictBody>, r2: Http<PredictBody>)
    requires d1.(state := d2.state) == d2
    ensures r1.status == r2.status == 200
    ensures PredictedAqi(r1.body) == PredictedAqi(r2.body) && AirQualityStatus(r1.body) == AirQualityStatus(r2.body)
    ensures r1.body.Prediction? <==> r2.body.Prediction?
    ensures r1.body.Prediction? ==> r1.body.inputCity == d1.state && r2.body.inputCity == d2.state
  {
    FeaturesSeeStateOnlyAsCode(d1, d2, None);
    r1 := PredictAqi(d1, Some(model), None, round2);
    r2 := PredictAqi(d2, Some(model), None, round2);
  }
}
