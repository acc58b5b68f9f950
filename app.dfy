/** The application shell: health advice, the request payload, and the prediction request lifecycle with
    the loading, error, result and idle panels it drives. */
module App {
  import opened Wire
  import opened Bands
  import ResultCard
  import PollutionChart
  import AqiForm
  import Backend

  datatype Advice = Advice(emoji: string, text: string)

  /** The six entries of `getHealthAdvice`, mildest first. */
  const AdviceTable: seq<Advice> := [
    Advice("\U{1F3C3}", "Air is great! Perfect time for a run or outdoor yoga."),
    Advice("\U{1F642}", "Air is okay. Sensitive people should be careful."),
    Advice("\U{1F637}", "Wear a mask if you have asthma. Reduce long outdoor activities."),
    Advice("\U{26A0}\U{FE0F}", "Unhealthy! Avoid outdoor exercise. Keep windows closed."),
    Advice("\U{2620}\U{FE0F}", "Very Poor! Stay indoors. Use an Air Purifier immediately."),
    Advice("\U{2623}\U{FE0F}", "Hazardous! Emergency conditions. Do not go outside.")
  ]

  /** `getHealthAdvice`: a chain of early returns on `aqi <= 50`, `<= 100`, `<= 200`, `<= 300`, `<= 400`.
      It picks the entry at the position of the reference band; a missing AQI gets the last entry. */
  function GetHealthAdvice(aqi: Field<real>): (a: Advice)
    ensures a == AdviceTable[Index(ClassifyField(aqi))]
  {
    ClassifyFieldRanges(aqi);
    if AtMost(aqi, 50.0) then AdviceTable[0]
    else if AtMost(aqi, 100.0) then AdviceTable[1]
    else if AtMost(aqi, 200.0) then AdviceTable[2]
    else if AtMost(aqi, 300.0) then AdviceTable[3]
    else if AtMost(aqi, 400.0) then AdviceTable[4]
    else AdviceTable[5]
  }

  /** The six entries differ pairwise (already in their emoji's first character). */
  lemma AdviceEntriesDistinct()
    ensures forall i, j :: 0 <= i < j < |AdviceTable| ==> AdviceTable[i] != AdviceTable[j]
  {
    assert forall i :: 0 <= i < |AdviceTable| ==> |AdviceTable[i].emoji| > 0;
    var leads := seq(|AdviceTable|, i requires 0 <= i < |AdviceTable| => AdviceTable[i].emoji[0]);
    assert leads == ['\U{1F3C3}', '\U{1F642}', '\U{1F637}', '\U{26A0}', '\U{2620}', '\U{2623}'];
  }

  /** Two readings get the same advice exactly when they fall in the same reference band. */
  lemma AdviceSameIffSameBand(a: Field<real>, b: Field<real>)
    ensures GetHealthAdvice(a) == GetHealthAdvice(b) <==> ClassifyField(a) == ClassifyField(b)
  {
    AdviceEntriesDistinct();
    BandIndexInjective(ClassifyField(a), ClassifyField(b));
    var i, j := Index(ClassifyField(a)), Index(ClassifyField(b));
    if i < j {
      assert AdviceTable[i] != AdviceTable[j];
    } else if j < i {
      assert AdviceTable[j] != AdviceTable[i];
    }
  }

  /** The health advice and the result card's status agree band for band: two readings share their advice
      exactly when they share their status, and the status label is the label the API's rule assigns. */
  lemma AdviceAgreesWithStatus(a: Field<real>, b: Field<real>)
    ensures GetHealthAdvice(a) == GetHealthAdvice(b) <==> ResultCard.GetStatusInfo(a) == ResultCard.GetStatusInfo(b)
    ensures ResultCard.GetStatusInfo(a).labelText == Label(ClassifyField(a))
  {
    AdviceSameIffSameBand(a, b);
    ResultCard.StatusInfoSameIffSameBand(a, b);
  }

  /** The three copies of the band rule agree: for any predicted AQI, the API's status cascade yields the
      label the result card shows, and the advice is the entry of that same band. */
  method ThreeRulesAgree(prediction: real) returns (serverStatus: string, cardLabel: string, advice: Advice)
    ensures serverStatus == cardLabel == Label(Classify(prediction))
    ensures |AdviceTable| == 6 && advice == AdviceTable[Index(Classify(prediction))]
  {
    serverStatus := Backend.PredictionStatus(prediction);
    cardLabel := ResultCard.GetStatusInfo(Defined(prediction)).labelText;
    advice := GetHealthAdvice(Defined(prediction));
  }

  /** The API labels the unrounded prediction `p` and reports `round(p, 2)` as `r`; the card picks its
      colour, background, border and icon from `r` and shows the API's label as the badge. The card is
      styled as a card for `p` itself would be exactly when `p` and `r` fall in the same band, and then the
      band whose styling it shows is the band the badge names. */
  lemma CardAgreesWithBadgeIffSameBand(p: real, r: real, city: string)
    ensures var body := Prediction(r, Label(Classify(p)), city);
            ResultCard.Style(ResultCard.Render(Some(body)).value)
              == ResultCard.Style(ResultCard.Render(Some(Prediction(p, Label(Classify(p)), city))).value)
            <==> Classify(r) == Classify(p)
    ensures var body := Prediction(r, Label(Classify(p)), city);
            ResultCard.GetStatusInfo(PredictedAqi(body)).labelText == AirQualityStatus(body).value
            <==> Classify(r) == Classify(p)
  {
    var body := Prediction(r, Label(Classify(p)), city);
    ResultCard.CardStyleFollowsBand(body, Prediction(p, Label(Classify(p)), city));
    LabelsDistinct(Classify(r), Classify(p));
  }

  /** The form's fields as `Object.fromEntries(new FormData(...))` gives them: all strings. */
  datatype RawForm = RawForm(state: string, pm25: string, pm10: string, no2: string, co: string, so2: string, o3: string)

  /** The `payload` object. `monthIndex` is `new Date().getMonth()`, `parseFloat` the number parser. */
  function BuildPayload(raw: RawForm, monthIndex: int, parseFloat: string -> real): (p: PredictionRequest)
    requires 0 <= monthIndex <= 11
    ensures p.state == raw.state
    ensures 1 <= p.month <= 12 && p.month == monthIndex + 1
    ensures Pollutants(p) == [parseFloat(raw.pm25), parseFloat(raw.pm10), parseFloat(raw.no2),
                              parseFloat(raw.co), parseFloat(raw.so2), parseFloat(raw.o3)]
  {
    PredictionRequest(raw.state, monthIndex + 1,
      parseFloat(raw.pm25), parseFloat(raw.pm10), parseFloat(raw.no2),
      parseFloat(raw.co), parseFloat(raw.so2), parseFloat(raw.o3))
  }

  /** The chart of a submission shows the parsed form values in chart order. */
  lemma ChartShowsSubmittedValues(raw: RawForm, monthIndex: int, parseFloat: string -> real)
    requires 0 <= monthIndex <= 11
    ensures var chart := PollutionChart.Chart(Some(BuildPayload(raw, monthIndex, parseFloat)));
            chart.Some? && |chart.value| == 6
            && chart.value[0].userValue == parseFloat(raw.pm25) && chart.value[1].userValue == parseFloat(raw.pm10)
            && chart.value[2].userValue == parseFloat(raw.no2) && chart.value[3].userValue == parseFloat(raw.co)
            && chart.value[4].userValue == parseFloat(raw.so2) && chart.value[5].userValue == parseFloat(raw.o3)
  {
    var p := BuildPayload(raw, monthIndex, parseFloat);
    assert Pollutants(p)[0] == parseFloat(raw.pm25) && Pollutants(p)[5] == parseFloat(raw.o3);
  }

  /** The "Optimal Safe Limits" reference card. */
  const ReferenceCard: seq<(string, real)> :=
    [("PM 2.5", 40.0), ("PM 10", 75.0), ("NO2", 30.0), ("CO", 1.0), ("SO2", 15.0), ("O3", 40.0)]

  /** The reference card lists the chart's safe limits, in the chart's order. */
  lemma ReferenceCardMatchesChart(input: PredictionRequest)
    ensures |ReferenceCard| == 6
    ensures forall i :: 0 <= i < 6 ==> ReferenceCard[i].1 == PollutionChart.Chart(Some(input)).value[i].safeLimit
  {
  }

  const InitialLoadingMessage := "Connecting to server..."

  /** `funnyMessages`, cycled while a request is pending. */
  const FunnyMessages: seq<string> := [
    "Waking up the AI...(It was napping) \U{1F634}",
    "Your time is very important to us...Please wait while we ignore you.",
    "Don't panic...Just count to infinite",
    "Please wait, Your PC is not a superman",
    "Thala for a reason 7"
  ]

  const FailMessage := "Backend connection failed! The server might be sleeping (Free Tier). Please try again in 30 seconds."

  /** How the `fetch` of POST /predict ends: it rejects, or a response arrives with its status and the
      outcome of `response.json()` (None: the body is not JSON). */
  datatype PredictReply = FetchFailed | Answered(status: int, body: Option<PredictBody>)

  /** The reply takes the success path: an ok status and a body that parses. */
  predicate Succeeds(reply: PredictReply) {
    reply.Answered? && IsOk(reply.status) && reply.body.Some?
  }

  /** The state of `App`: its five state hooks, the counter of the running loading-message interval, and
      two ghost fields that track pending requests. */
  class App {
    var result: Option<PredictBody>
    var inputData: Option<PredictionRequest>
    var loading: bool
    var error: Option<string>
    var loadingMsg: string
    /** The counter `i` of the interval that runs while `loading` is true. */
    var tick: nat
    /** Requests issued and not yet completed. */
    ghost var inFlight: nat
    /** The last submission was made while an earlier request was still pending. */
    ghost var overlapped: bool

    ghost predicate Valid()
      reads this
    {
      (inputData.None? ==> inFlight == 0 && !loading && result.None? && error.None?)
      && (loading ==> inFlight > 0)
      && (!loading ==> tick == 0)
      && (loading && tick > 0 ==> loadingMsg == FunnyMessages[(tick - 1) % |FunnyMessages|])
      && (!overlapped ==>
            inFlight <= 1 && (loading <==> inFlight == 1)
            && (loading ==> result.None? && error.None?)
            && !(result.Some? && error.Some?))
    }

    /** `{loading && ...}`: the loading panel. */
    predicate ShowsLoading()
      reads this
    {
      loading
    }

    /** `{error && ...}`: the error banner. */
    predicate ShowsError()
      reads this
    {
      error.Some? && error.value != ""
    }

    /** `{result && !loading && ...}`: result card, health advice and chart. */
    predicate ShowsResults()
      reads this
    {
      result.Some? && !loading
    }

    /** `{inputData && <PollutionChart .../>}` inside the results panel. */
    predicate ShowsChart()
      reads this
    {
      ShowsResults() && inputData.Some?
    }

    /** `{!result && !inputData && !loading && ...}`: the idle placeholder. */
    predicate ShowsIdle()
      reads this
    {
      result.None? && inputData.None? && !loading
    }

    /** The panels the state can show together: the loading panel hides results, chart and idle
        placeholder; the idle placeholder never comes with an error or results; the chart comes exactly
        with the results; without overlapping submissions the error banner never shows beside the
        loading panel or the results. */
    lemma PanelsAgree()
      requires Valid()
      ensures ShowsLoading() ==> !ShowsResults() && !ShowsChart() && !ShowsIdle()
      ensures ShowsIdle() ==> !ShowsError() && !ShowsResults() && !ShowsLoading()
      ensures ShowsChart() <==> ShowsResults()
      ensures !overlapped ==> !(ShowsLoading() && ShowsError()) && !(ShowsResults() && ShowsError())
    {
    }

    constructor()
      ensures Valid()
      ensures result.None? && inputData.None? && !loading && error.None?
      ensures loadingMsg == InitialLoadingMessage && inFlight == 0
      ensures ShowsIdle() && !ShowsLoading() && !ShowsError() && !ShowsResults()
    {
      result, inputData, loading, error := None, None, false, None;
      loadingMsg := InitialLoadingMessage;
      tick := 0;
      inFlight, overlapped := 0, false;
    }

    /** The synchronous part of `handlePredict`, up to issuing the request. */
    method Submit(raw: RawForm, monthIndex: int, parseFloat: string -> real)
      requires Valid()
      requires 0 <= monthIndex <= 11
      modifies this
      ensures Valid()
      ensures loading && error.None? && result.None?
      ensures inputData == Some(BuildPayload(raw, monthIndex, parseFloat))
      ensures loadingMsg == old(loadingMsg) && tick == old(tick)
      ensures !old(loading) ==> tick == 0
      ensures inFlight == old(inFlight) + 1 && overlapped == (old(inFlight) > 0)
      ensures !AqiForm.SubmitDisabled(old(loading)) && !old(overlapped) ==> !overlapped
      ensures ShowsLoading() && !ShowsError() && !ShowsResults() && !ShowsIdle()
    {
      loading := true;
      error := None;
      result := None;
      var payload := BuildPayload(raw, monthIndex, parseFloat);
      inputData := Some(payload);
      overlapped := inFlight > 0;
      inFlight := inFlight + 1;
    }

    /** The asynchronous part of `handlePredict`: the request ends, through `try`, `catch` and `finally`. */
    method Complete(reply: PredictReply)
      requires Valid() && inFlight > 0
      modifies this
      ensures Valid()
      ensures !loading && tick == 0 && inFlight == old(inFlight) - 1
      ensures inputData == old(inputData) && loadingMsg == old(loadingMsg) && overlapped == old(overlapped)
      ensures Succeeds(reply) ==> result == reply.body && error == old(error)
      ensures !Succeeds(reply) ==> error == Some(FailMessage) && result == old(result)
      ensures !overlapped ==> (ShowsResults() <==> Succeeds(reply)) && (ShowsError() <==> !Succeeds(reply))
      ensures !ShowsLoading() && !ShowsIdle() && (ShowsResults() <==> ShowsChart())
    {
      if Succeeds(reply) {
        result := reply.body;
      } else {
        error := Some(FailMessage);
      }
      loading := false;
      tick := 0;
      inFlight := inFlight - 1;
    }

    /** One firing of the loading-message interval; while not loading there is no interval and nothing changes. */
    method Tick()
      requires Valid()
      modifies this
      ensures Valid()
      ensures old(loading) ==> loadingMsg == FunnyMessages[old(tick) % |FunnyMessages|] && tick == old(tick) + 1
      ensures !old(loading) ==> loadingMsg == old(loadingMsg) && tick == old(tick)
      ensures result == old(result) && inputData == old(inputData) && loading == old(loading) && error == old(error)
      ensures inFlight == old(inFlight) && overlapped == old(overlapped)
    {
      if loading {
        loadingMsg := FunnyMessages[tick % |FunnyMessages|];
        tick := tick + 1;
      }
    }
  }

  /** One submission followed by its completion: exactly one of the result panel and the error banner
      shows, the chart comes with the results, and the idle placeholder is gone for good. */
  method SubmitThenComplete(raw: RawForm, monthIndex: int, parseFloat: string -> real, reply: PredictReply)
    returns (resultShown: bool, errorShown: bool, chartShown: bool, idleShown: bool)
    requires 0 <= monthIndex <= 11
    ensures resultShown == Succeeds(reply) && errorShown == !Succeeds(reply)
    ensures chartShown == resultShown && !idleShown
  {
    var app := new App();
    app.Submit(raw, monthIndex, parseFloat);
    app.Complete(reply);
    resultShown, errorShown, chartShown, idleShown := app.ShowsResults(), app.ShowsError(), app.ShowsChart(), app.ShowsIdle();
  }

  /** Without the disabled button, a second submission while the first is pending lets the first reply's
      result and the second reply's failure both stand: results and error banner show together. */
  method OverlappingSubmissions(raw: RawForm, parseFloat: string -> real, body: PredictBody)
    returns (resultShown: bool, errorShown: bool)
    ensures resultShown && errorShown
  {
    var app := new App();
    app.Submit(raw, 0, parseFloat);
    app.Submit(raw, 0, parseFloat);
    app.Complete(Answered(200, Some(body)));
    app.Complete(FetchFailed);
    resultShown, errorShown := app.ShowsResults(), app.ShowsError();
  }

  /** The n-th firing in a loading phase shows message n mod 5; a new phase starts over at the first message,
      and no message changes once loading has ended. */
  method LoadingMessagesCycle(raw: RawForm, parseFloat: string -> real, reply: PredictReply)
    returns (sixth: string, afterEnd: string, firstOfNextPhase: string)
    ensures sixth == FunnyMessages[0] && afterEnd == FunnyMessages[0]
    ensures firstOfNextPhase == FunnyMessages[0]
  {
    var app := new App();
    app.Submit(raw, 0, parseFloat);
    assert app.tick == 0 && app.loading;
    app.Tick();
    assert app.tick == 1 && app.loading;
    app.Tick();
    assert app.tick == 2 && app.loading;
    app.Tick();
    assert app.tick == 3 && app.loading;
    app.Tick();
    assert app.tick == 4 && app.loading;
    app.Tick();
    assert app.tick == 5 && app.loading;
    app.Tick();
    sixth := app.loadingMsg;
    assert sixth == FunnyMessages[0];
    app.Complete(reply);
    assert !app.loading && app.loadingMsg == sixth;
    app.Tick();
    afterEnd := app.loadingMsg;
    app.Submit(raw, 0, parseFloat);
    assert app.tick == 0 && app.loading;
    app.Tick();
    firstOfNextPhase := app.loadingMsg;
  }

  /** A 200 reply with an `{"error": ...}` body counts as success: it becomes the result, no error shows,
      and the result card and advice treat its missing AQI as Severe. */
  method ErrorBodyShownAsResult(raw: RawForm, parseFloat: string -> real, message: string)
    returns (resultShown: bool, errorShown: bool, advice: Advice)
    ensures resultShown && !errorShown
    ensures advice == GetHealthAdvice(Defined(401.0))
  {
    var app := new App();
    app.Submit(raw, 0, parseFloat);
    app.Complete(Answered(200, Some(PredictError(message))));
    resultShown, errorShown := app.ShowsResults(), app.ShowsError();
    advice := GetHealthAdvice(PredictedAqi(app.result.value));
  }
}
